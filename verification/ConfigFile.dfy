/** `loadConfig` from the text of the configuration file to the list of nodes. */
module ConfigFile {
  import opened JsonStrings
  import opened JsonParser
  import opened JsonRoundTrip
  import opened GraphLoading
  import opened Counting

  /** One node as configured; `retries` is the number token of max_retries, or empty. */
  datatype NodeRecord = NodeRecord(id: string, kind: string, deps: seq<string>, retries: string)

  datatype ConfigError = UnreadableNumber | RootNotObject | NoNodesArray | NodeWithoutId | NodeWithoutType(id: string)

  datatype RecordResult = Ok(record: NodeRecord) | Bad(error: ConfigError)

  datatype ConfigResult = Nodes(records: seq<NodeRecord>) | Rejected(error: ConfigError)

  datatype Lookup = NoField | Field(v: JsonValue)

  // ------------------------------------------------------------ what the loops compute

  /** `JsonValue::get`: the first entry under the key. */
  function Get(obj: seq<Entry>, key: string): Lookup {
    if obj == [] then NoField
    else if obj[0].key == key then Field(obj[0].value)
    else Get(obj[1..], key)
  }

  /** The strings of an array; other elements are passed over. */
  function StringsIn(arr: seq<JsonValue>): seq<string> {
    if arr == [] then []
    else
      var last := arr[|arr| - 1];
      StringsIn(arr[..|arr| - 1]) + if last.String? then [last.str] else []
  }

  function RecordOf(obj: seq<Entry>): RecordResult {
    var id, kind, deps, retries := Get(obj, "id"), Get(obj, "type"), Get(obj, "dependencies"), Get(obj, "max_retries");
    if !(id.Field? && id.v.String?) then Bad(NodeWithoutId)
    else if !(kind.Field? && kind.v.String?) then Bad(NodeWithoutType(id.v.str))
    else Ok(NodeRecord(id.v.str, kind.v.str,
                       if deps.Field? && deps.v.Array? then StringsIn(deps.v.arr) else [],
                       if retries.Field? && retries.v.Number? then retries.v.token else ""))
  }

  /** The records of the nodes array up to the first bad node; elements that are not
      objects are passed over. */
  function RecordsOf(arr: seq<JsonValue>): ConfigResult {
    if arr == [] then Nodes([])
    else
      var last := arr[|arr| - 1];
      match RecordsOf(arr[..|arr| - 1])
      case Rejected(e) => Rejected(e)
      case Nodes(records) =>
        if !last.Object? then Nodes(records)
        else match RecordOf(last.obj)
          case Bad(e) => Rejected(e)
          case Ok(record) => Nodes(records + [record])
  }

  function ConfigOf(root: JsonValue): ConfigResult {
    if !root.Object? then Rejected(RootNotObject)
    else
      var nodes := Get(root.obj, "nodes");
      if nodes.Field? && nodes.v.Array? then RecordsOf(nodes.v.arr) else Rejected(NoNodesArray)
  }

  // ------------------------------------------------------------ what a configuration says

  /** Among the members of an object, in whatever order, `key` has the value `v`; of several
      members under one key the first counts. */
  ghost predicate Says(obj: seq<Entry>, key: string, v: JsonValue) {
    exists i :: 0 <= i < |obj| && obj[i] == Entry(key, v) && forall k :: 0 <= k < i ==> obj[k].key != key
  }

  ghost function StringPlaces(arr: seq<JsonValue>): set<int> {
    set i | 0 <= i < |arr| && arr[i].String?
  }

  ghost function ObjectPlaces(arr: seq<JsonValue>): set<int> {
    set i | 0 <= i < |arr| && arr[i].Object?
  }

  /** The strings at the places `idx`. */
  ghost predicate StringsAt(arr: seq<JsonValue>, idx: seq<int>, strings: seq<string>) {
    |idx| == |strings| && forall k :: 0 <= k < |idx| ==> 0 <= idx[k] < |arr| && arr[idx[k]] == String(strings[k])
  }

  /** All the strings of the array, in order; what is not a string is passed over. */
  ghost predicate TheStrings(arr: seq<JsonValue>, strings: seq<string>) {
    exists idx :: Enumerates(idx, StringPlaces(arr)) && StringsAt(arr, idx, strings)
  }

  ghost predicate SaysStrings(obj: seq<Entry>, key: string, strings: seq<string>) {
    || (exists arr :: Says(obj, key, Array(arr)) && TheStrings(arr, strings))
    || (strings == [] && forall arr :: !Says(obj, key, Array(arr)))
  }

  ghost predicate SaysNumber(obj: seq<Entry>, key: string, token: string) {
    || Says(obj, key, Number(token))
    || (token == "" && forall other :: !Says(obj, key, Number(other)))
  }

  /** The object describes the record, its members in any order and among any others. */
  ghost predicate Describes(obj: seq<Entry>, r: NodeRecord) {
    && Says(obj, "id", String(r.id))
    && Says(obj, "type", String(r.kind))
    && SaysStrings(obj, "dependencies", r.deps)
    && SaysNumber(obj, "max_retries", r.retries)
  }

  /** The object does not describe a node, for this reason. */
  ghost predicate Faulty(obj: seq<Entry>, e: ConfigError) {
    match e
    case NodeWithoutId => forall v :: !Says(obj, "id", String(v))
    case NodeWithoutType(id) => Says(obj, "id", String(id)) && forall v :: !Says(obj, "type", String(v))
    case _ => false
  }

  ghost predicate RecordsAt(arr: seq<JsonValue>, idx: seq<int>, records: seq<NodeRecord>) {
    |idx| == |records| && forall k :: 0 <= k < |idx| ==>
      0 <= idx[k] < |arr| && arr[idx[k]].Object? && Describes(arr[idx[k]].obj, records[k])
  }

  /** The objects of the array describe the records, one after the other; what is not an
      object is passed over. */
  ghost predicate TheRecords(arr: seq<JsonValue>, records: seq<NodeRecord>) {
    exists idx :: Enumerates(idx, ObjectPlaces(arr)) && RecordsAt(arr, idx, records)
  }

  ghost predicate DescribesNode(obj: seq<Entry>) {
    exists r :: Describes(obj, r)
  }

  /** The first object of the array that does not describe a node is faulty in this way. */
  ghost predicate FirstFault(arr: seq<JsonValue>, e: ConfigError) {
    exists i ::
      && 0 <= i < |arr| && arr[i].Object? && Faulty(arr[i].obj, e)
      && forall k :: 0 <= k < i && arr[k].Object? ==> DescribesNode(arr[k].obj)
  }

  ghost predicate NodesAnswer(arr: seq<JsonValue>, r: ConfigResult) {
    match r
    case Nodes(records) => TheRecords(arr, records)
    case Rejected(e) => FirstFault(arr, e)
  }

  /** What a document deserves: each way to be rejected, and otherwise its records. */
  ghost predicate RootAnswer(root: JsonValue, r: ConfigResult) {
    if !root.Object? then r == Rejected(RootNotObject)
    else if forall arr :: !Says(root.obj, "nodes", Array(arr)) then r == Rejected(NoNodesArray)
    else exists arr :: Says(root.obj, "nodes", Array(arr)) && NodesAnswer(arr, r)
  }

  ghost predicate TextAnswer(text: string, r: ConfigResult) {
    match ParseValue(text, 0)
    case Thrown => r == Rejected(UnreadableNumber)
    case Value(root, _) => RootAnswer(root, r)
  }

  /** The search finds what an object says, and only that. */
  lemma {:induction false} GetIff(obj: seq<Entry>, key: string)
    ensures forall v :: Says(obj, key, v) <==> Get(obj, key) == Field(v)
  {
    if obj != [] {
      GetIff(obj[1..], key);
      forall v ensures Says(obj, key, v) <==> Get(obj, key) == Field(v) {
        if obj[0].key == key {
          assert obj[0] == Entry(key, v) || !Says(obj, key, v);
        } else {
          LaterMember(obj, key, v);
        }
      }
    }
  }

  lemma LaterMember(obj: seq<Entry>, key: string, v: JsonValue)
    requires obj != [] && obj[0].key != key
    ensures Says(obj, key, v) <==> Says(obj[1..], key, v)
  {
    if i :| 0 <= i < |obj| && obj[i] == Entry(key, v) && forall k :: 0 <= k < i ==> obj[k].key != key {
      assert obj[1..][i - 1] == Entry(key, v);
    }
    if i :| 0 <= i < |obj[1..]| && obj[1..][i] == Entry(key, v) && forall k :: 0 <= k < i ==> obj[1..][k].key != key {
      assert obj[i + 1] == Entry(key, v);
      forall k | 0 <= k < i + 1 ensures obj[k].key != key {
        assert k > 0 ==> obj[1..][k - 1].key != key;
      }
    }
  }

  lemma {:induction false} StringsFound(arr: seq<JsonValue>) returns (idx: seq<int>)
    ensures Enumerates(idx, StringPlaces(arr)) && StringsAt(arr, idx, StringsIn(arr))
  {
    if arr == [] {
      idx := [];
    } else {
      var n := |arr| - 1;
      var places := StringPlaces(arr[..n]);
      idx := StringsFound(arr[..n]);
      if arr[n].String? {
        EnumeratesMore(idx, places, n);
        assert StringPlaces(arr) == places + {n};
        idx := idx + [n];
      } else {
        assert StringPlaces(arr) == places;
      }
    }
  }

  lemma {:induction false} StringsFixed(arr: seq<JsonValue>, idx: seq<int>, strings: seq<string>)
    requires Enumerates(idx, StringPlaces(arr)) && StringsAt(arr, idx, strings)
    ensures strings == StringsIn(arr)
    decreases |arr|
  {
    hide Enumerates;
    if arr == [] {
      EmptyEnumeration(idx, StringPlaces(arr));
    } else {
      var n := |arr| - 1;
      var places := StringPlaces(arr[..n]);
      if arr[n].String? {
        assert StringPlaces(arr) == places + {n};
        EnumeratesLess(idx, places, n);
        var m := |idx| - 1;
        MembersBelow(idx[..m], places, n);
        StringsFixed(arr[..n], idx[..m], strings[..m]);
        assert strings == strings[..m] + [strings[m]];
      } else {
        assert StringPlaces(arr) == places;
        MembersBelow(idx, places, n);
        StringsFixed(arr[..n], idx, strings);
      }
    }
  }

  /** The strings of an array are determined, and the loop collects them. */
  lemma StringsIff(arr: seq<JsonValue>, strings: seq<string>)
    ensures strings == StringsIn(arr) <==> TheStrings(arr, strings)
  {
    hide Enumerates, StringsAt, StringsIn;
    var found := StringsFound(arr);
    if TheStrings(arr, strings) {
      var idx :| Enumerates(idx, StringPlaces(arr)) && StringsAt(arr, idx, strings);
      StringsFixed(arr, idx, strings);
    }
  }

  /** The answer for one node object, in every case. */
  lemma RecordIff(obj: seq<Entry>)
    ensures forall r :: RecordOf(obj) == Ok(r) <==> Describes(obj, r)
    ensures forall e :: RecordOf(obj) == Bad(e) <==> Faulty(obj, e)
  {
    hide Get, Says, StringsIn, TheStrings;
    GetIff(obj, "id");
    GetIff(obj, "type");
    GetIff(obj, "dependencies");
    GetIff(obj, "max_retries");
    forall arr, strings ensures strings == StringsIn(arr) <==> TheStrings(arr, strings) {
      StringsIff(arr, strings);
    }
  }

  lemma {:induction false} RecordsFound(arr: seq<JsonValue>) returns (idx: seq<int>)
    requires RecordsOf(arr).Nodes?
    ensures Enumerates(idx, ObjectPlaces(arr)) && RecordsAt(arr, idx, RecordsOf(arr).records)
  {
    hide Describes, RecordOf;
    if arr == [] {
      idx := [];
    } else {
      var n := |arr| - 1;
      var places := ObjectPlaces(arr[..n]);
      idx := RecordsFound(arr[..n]);
      if arr[n].Object? {
        RecordIff(arr[n].obj);
        EnumeratesMore(idx, places, n);
        assert ObjectPlaces(arr) == places + {n};
        idx := idx + [n];
      } else {
        assert ObjectPlaces(arr) == places;
      }
    }
  }

  lemma {:induction false} RecordsFixed(arr: seq<JsonValue>, idx: seq<int>, records: seq<NodeRecord>)
    requires Enumerates(idx, ObjectPlaces(arr)) && RecordsAt(arr, idx, records)
    ensures RecordsOf(arr) == Nodes(records)
    decreases |arr|
  {
    hide Enumerates, Describes, RecordOf;
    if arr == [] {
      EmptyEnumeration(idx, ObjectPlaces(arr));
    } else {
      var n := |arr| - 1;
      var places := ObjectPlaces(arr[..n]);
      if arr[n].Object? {
        assert ObjectPlaces(arr) == places + {n};
        EnumeratesLess(idx, places, n);
        var m := |idx| - 1;
        MembersBelow(idx[..m], places, n);
        RecordsFixed(arr[..n], idx[..m], records[..m]);
        RecordIff(arr[n].obj);
        assert records == records[..m] + [records[m]];
      } else {
        assert ObjectPlaces(arr) == places;
        MembersBelow(idx, places, n);
        RecordsFixed(arr[..n], idx, records);
      }
    }
  }

  lemma {:induction false} FirstBad(arr: seq<JsonValue>)
    ensures RecordsOf(arr).Nodes? <==> forall k :: 0 <= k < |arr| && arr[k].Object? ==> RecordOf(arr[k].obj).Ok?
    ensures RecordsOf(arr).Rejected? ==> exists i ::
      && 0 <= i < |arr| && arr[i].Object? && RecordOf(arr[i].obj) == Bad(RecordsOf(arr).error)
      && forall k :: 0 <= k < i && arr[k].Object? ==> RecordOf(arr[k].obj).Ok?
  {
    hide RecordOf;
    if arr != [] {
      var n := |arr| - 1;
      FirstBad(arr[..n]);
      assert forall k :: 0 <= k < n ==> arr[..n][k] == arr[k];
    }
  }

  lemma FaultIff(arr: seq<JsonValue>, e: ConfigError)
    ensures RecordsOf(arr) == Rejected(e) <==> FirstFault(arr, e)
  {
    hide RecordOf, RecordsOf, Describes, Faulty;
    FirstBad(arr);
    forall obj ensures RecordOf(obj).Ok? <==> DescribesNode(obj) {
      RecordIff(obj);
    }
    forall obj, x ensures RecordOf(obj) == Bad(x) <==> Faulty(obj, x) {
      RecordIff(obj);
    }
  }

  /** The answer for the list of nodes, in every case. */
  lemma NodesIff(arr: seq<JsonValue>, r: ConfigResult)
    ensures RecordsOf(arr) == r <==> NodesAnswer(arr, r)
  {
    hide RecordsOf, Enumerates, RecordsAt, FirstFault;
    if r.Rejected? {
      FaultIff(arr, r.error);
    } else {
      if RecordsOf(arr).Nodes? {
        var found := RecordsFound(arr);
      }
      if TheRecords(arr, r.records) {
        var idx :| Enumerates(idx, ObjectPlaces(arr)) && RecordsAt(arr, idx, r.records);
        RecordsFixed(arr, idx, r.records);
      }
    }
  }

  /** The answer for a document, in every case. */
  lemma RootIff(root: JsonValue, r: ConfigResult)
    ensures ConfigOf(root) == r <==> RootAnswer(root, r)
  {
    hide RecordsOf, NodesAnswer, Get, Says;
    if root.Object? {
      GetIff(root.obj, "nodes");
      forall arr, x ensures RecordsOf(arr) == x <==> NodesAnswer(arr, x) {
        NodesIff(arr, x);
      }
    }
  }

  // ------------------------------------------------------------ the loops

  method GetLoop(obj: seq<Entry>, key: string) returns (r: Lookup)
    ensures r == Get(obj, key)
  {
    for i := 0 to |obj|
      invariant Get(obj, key) == Get(obj[i..], key)
    {
      if obj[i].key == key {
        return Field(obj[i].value);
      }
      assert obj[i..][1..] == obj[i + 1..];
    }
    r := NoField;
  }

  method ReadStrings(arr: seq<JsonValue>) returns (strings: seq<string>)
    ensures strings == StringsIn(arr)
  {
    strings := [];
    for i := 0 to |arr|
      invariant strings == StringsIn(arr[..i])
    {
      assert arr[..i + 1][..i] == arr[..i];
      if arr[i].String? {
        strings := strings + [arr[i].str];
      }
    }
    assert arr[..|arr|] == arr;
  }

  method ReadRecord(obj: seq<Entry>) returns (r: RecordResult)
    ensures r == RecordOf(obj)
    ensures match r case Ok(record) => Describes(obj, record) case Bad(e) => Faulty(obj, e)
  {
    hide Get, StringsIn, Describes, Faulty;
    RecordIff(obj);
    var id := GetLoop(obj, "id");
    if id.NoField? || !id.v.String? {
      return Bad(NodeWithoutId);
    }
    var kind := GetLoop(obj, "type");
    if kind.NoField? || !kind.v.String? {
      return Bad(NodeWithoutType(id.v.str));
    }
    var deps := [];
    var depsVal := GetLoop(obj, "dependencies");
    if depsVal.Field? && depsVal.v.Array? {
      deps := ReadStrings(depsVal.v.arr);
    }
    var retries := "";
    var retriesVal := GetLoop(obj, "max_retries");
    if retriesVal.Field? && retriesVal.v.Number? {
      retries := retriesVal.v.token;
    }
    r := Ok(NodeRecord(id.v.str, kind.v.str, deps, retries));
  }

  lemma {:induction false} FirstErrorStays(arr: seq<JsonValue>, i: nat)
    requires i <= |arr| && RecordsOf(arr[..i]).Rejected?
    ensures RecordsOf(arr) == RecordsOf(arr[..i])
    decreases |arr|
  {
    if i < |arr| {
      assert arr[..|arr| - 1][..i] == arr[..i];
      FirstErrorStays(arr[..|arr| - 1], i);
    } else {
      assert arr[..i] == arr;
    }
  }

  method ReadRecords(arr: seq<JsonValue>) returns (r: ConfigResult)
    ensures r == RecordsOf(arr)
    ensures NodesAnswer(arr, r)
  {
    hide RecordOf, NodesAnswer;
    NodesIff(arr, RecordsOf(arr));
    var records := [];
    for i := 0 to |arr|
      invariant RecordsOf(arr[..i]) == Nodes(records)
    {
      assert arr[..i + 1][..i] == arr[..i];
      if arr[i].Object? {
        var one := ReadRecord(arr[i].obj);
        if one.Bad? {
          FirstErrorStays(arr, i + 1);
          return Rejected(one.error);
        }
        records := records + [one.record];
      }
    }
    assert arr[..|arr|] == arr;
    r := Nodes(records);
  }

  /** What `loadConfig` makes of a text: parse, then read the nodes. */
  function LoadText(text: string): ConfigResult {
    match ParseValue(text, 0)
    case Thrown => Rejected(UnreadableNumber)
    case Value(root, _) => ConfigOf(root)
  }

  lemma TextIff(text: string, r: ConfigResult)
    ensures LoadText(text) == r <==> TextAnswer(text, r)
  {
    hide ParseValue, ConfigOf, RootAnswer;
    match ParseValue(text, 0)
    case Thrown =>
    case Value(root, _) => RootIff(root, r);
  }

  /** `loadConfig` up to the graph. */
  method LoadNodes(text: string) returns (r: ConfigResult)
    ensures r == LoadText(text)
    ensures TextAnswer(text, r)
  {
    hide RecordsOf, TextAnswer;
    TextIff(text, LoadText(text));
    var root := ParseAt(text, 0);
    if root.Thrown? {
      return Rejected(UnreadableNumber);
    }
    if !root.v.Object? {
      return Rejected(RootNotObject);
    }
    var nodes := GetLoop(root.v.obj, "nodes");
    if nodes.NoField? || !nodes.v.Array? {
      return Rejected(NoNodesArray);
    }
    r := ReadRecords(nodes.v.arr);
  }

  // ------------------------------------------------------------ any layout

  /** Whatever the layout and the spelling of its strings, and whatever follows it, a
      configuration text gets the answer that the document it means deserves. */
  lemma ConfigRoundTrip(lead: string, d: Doc, suf: string, r: ConfigResult)
    requires AllWs(lead) && ValidDoc(d) && DocSupported(d)
    requires d.DNumber? && suf != "" ==> !NumChar(suf[0])
    ensures LoadText(lead + Text(d) + suf) == r <==>
      if Readable(d) then RootAnswer(ValueOf(d, MeaningAll), r) else r == Rejected(UnreadableNumber)
  {
    hide ParseValue, Text, ValidDoc, DocSupported, ConfigOf, RootAnswer, Readable;
    ParserInvertsPrinter(lead, d, suf);
    RootIff(ValueOf(d, MeaningAll), r);
  }

  function StringValues(strings: seq<string>): seq<JsonValue> {
    seq(|strings|, i requires 0 <= i < |strings| => String(strings[i]))
  }

  lemma {:induction false} StringsBack(strings: seq<string>)
    ensures StringsIn(StringValues(strings)) == strings
  {
    if strings != [] {
      var n := |strings| - 1;
      StringsBack(strings[..n]);
      assert StringValues(strings)[..n] == StringValues(strings[..n]);
      assert strings == strings[..n] + [strings[n]];
    }
  }

  /** The plainest object that describes a record. */
  function RecordValue(r: NodeRecord): JsonValue {
    Object([Entry("id", String(r.id)), Entry("type", String(r.kind)),
            Entry("dependencies", Array(StringValues(r.deps)))]
           + if r.retries == "" then [] else [Entry("max_retries", Number(r.retries))])
  }

  function DocumentOf(records: seq<NodeRecord>): JsonValue {
    Object([Entry("nodes", Array(seq(|records|, i requires 0 <= i < |records| => RecordValue(records[i]))))])
  }

  /** Every list of records has a document. */
  lemma DocumentLists(records: seq<NodeRecord>)
    ensures RootAnswer(DocumentOf(records), Nodes(records))
  {
    hide Describes, RecordValue;
    var root := DocumentOf(records).obj;
    var arr := root[0].value.arr;
    assert Says(root, "nodes", Array(arr)) by { assert root[0] == Entry("nodes", Array(arr)); }
    forall i | 0 <= i < |records| ensures arr[i].Object? && Describes(arr[i].obj, records[i]) {
      RecordDescribes(records[i]);
    }
    var idx := seq(|records|, i requires 0 <= i < |records| => i);
    forall x ensures x in idx <==> x in ObjectPlaces(arr) {
      assert 0 <= x < |records| ==> idx[x] == x;
    }
    assert RecordsAt(arr, idx, records);
  }

  lemma RecordDescribes(r: NodeRecord)
    ensures RecordValue(r).Object? && Describes(RecordValue(r).obj, r)
  {
    hide StringValues, StringsIn, TheStrings;
    var obj := RecordValue(r).obj;
    assert obj[0] == Entry("id", String(r.id)) && obj[1] == Entry("type", String(r.kind));
    assert obj[2] == Entry("dependencies", Array(StringValues(r.deps)));
    assert r.retries != "" ==> obj[3] == Entry("max_retries", Number(r.retries));
    StringsBack(r.deps);
    StringsIff(StringValues(r.deps), r.deps);
  }

  /** The part of the records the graph is built from. */
  function ConfigsOf(records: seq<NodeRecord>): seq<NodeConfig> {
    seq(|records|, i requires 0 <= i < |records| => NodeConfig(records[i].id, records[i].deps))
  }

  datatype LoadOutcome = ConfigRejected(error: ConfigError) | Built(records: seq<NodeRecord>, graph: LoadResult)

  /** `loadConfig`: from the text to the validated graph. */
  method LoadConfig(text: string) returns (o: LoadOutcome)
    ensures match LoadText(text)
      case Rejected(e) => o == ConfigRejected(e)
      case Nodes(records) => o.Built? && o.records == records && LoadAnswer(ConfigsOf(records), o.graph)
    ensures TextAnswer(text, if o.Built? then Nodes(o.records) else Rejected(o.error))
  {
    hide LoadText, LoadAnswer, TextAnswer;
    var r := LoadNodes(text);
    match r {
      case Rejected(e) => o := ConfigRejected(e);
      case Nodes(records) =>
        var graph := LoadGraph(ConfigsOf(records));
        o := Built(records, graph);
    }
  }
}
