/** The batch-and-render pipeline of `Session.upsert_node`: the parsed YAML
    list is cut into slices of 10000 records, each slice becomes one string
    of record literals, and each string is posted as one upsert mutation. */
module InfradbApi {
  import opened Wrappers
  import opened Seqs
  import opened Chunking
  import opened Templates

  /** One parsed YAML mapping, every scalar already turned into text. */
  type Node = map<string, string>

  /** The YAMLKeys enumeration. */
  const XpathKey := "xpath"
  const TypeKey := "type"
  const ValueKey := "value"
  const AttrKey := "attr"
  const OwnerKey := "owner"
  const ListindexKey := "listindex"

  /** The slice size `upsert_node` passes to `_trunk`. */
  const ChunkSize := 10000

  /** `node[key]`, which raises KeyError naming the key when it is absent. */
  function Lookup(node: Node, key: string): Result<string, string>
  {
    if key in node then Ok(node[key]) else Err(key)
  }

  /** `node[key] if key in node else ""`. */
  function LookupOrEmpty(node: Node, key: string): string
  {
    if key in node then node[key] else ""
  }

  /** The six values read from one node, in the order the source reads them:
      the first absent required key is the KeyError that escapes. */
  function ItemOf(node: Node): (r: Result<Item, string>)
    ensures r.Ok? <==> XpathKey in node && TypeKey in node && ListindexKey in node && OwnerKey in node
    ensures r.Ok? ==>
      r.value.xpath == node[XpathKey] && r.value.kind == node[TypeKey] &&
      r.value.listindex == node[ListindexKey] && r.value.owner == node[OwnerKey] &&
      (AttrKey in node ==> r.value.attr == node[AttrKey]) && (AttrKey !in node ==> r.value.attr == "") &&
      (ValueKey in node ==> r.value.value == node[ValueKey]) && (ValueKey !in node ==> r.value.value == "")
    ensures r == Err(XpathKey) <==> XpathKey !in node
    ensures r == Err(TypeKey) <==> XpathKey in node && TypeKey !in node
    ensures r == Err(ListindexKey) <==> XpathKey in node && TypeKey in node && ListindexKey !in node
    ensures r == Err(OwnerKey) <==>
      XpathKey in node && TypeKey in node && ListindexKey in node && OwnerKey !in node
  {
    var xpath :- Lookup(node, XpathKey);
    var kind :- Lookup(node, TypeKey);
    var attr := LookupOrEmpty(node, AttrKey);
    var value := LookupOrEmpty(node, ValueKey);
    var listindex :- Lookup(node, ListindexKey);
    var owner :- Lookup(node, OwnerKey);
    Ok(Item(xpath, kind, attr, value, listindex, owner))
  }

  /** The record literal of one node, or the KeyError its lookups raise. */
  function RenderNode(node: Node): (r: Result<string, string>)
    ensures r.Ok? <==> XpathKey in node && TypeKey in node && ListindexKey in node && OwnerKey in node
    ensures r.Err? ==> r.error in [XpathKey, TypeKey, ListindexKey, OwnerKey] && r.error !in node
  {
    match ItemOf(node)
    case Err(key) => Err(key)
    case Ok(it) => Ok(RenderItem(it))
  }

  /** A node with the four required keys renders, and reading its literal
      back gives its values verbatim, with "" for an absent `attr` or
      `value`, as long as none of the six rendered values holds a double
      quote. */
  lemma RenderNodeRoundTrip(node: Node)
    requires XpathKey in node && TypeKey in node && ListindexKey in node && OwnerKey in node
    requires QuoteFree(ItemOf(node).value)
    ensures RenderNode(node).Ok?
    ensures ParseItem(RenderNode(node).value) == Some(Item(
      node[XpathKey], node[TypeKey], LookupOrEmpty(node, AttrKey), LookupOrEmpty(node, ValueKey),
      node[ListindexKey], node[OwnerKey]))
  {
    RenderItemRoundTrip(ItemOf(node).value);
  }

  /** `DataList` after the inner loop over one slice: the literals in
      reverse order, or the KeyError of the first node that lacks a
      required key. */
  function DataList(chunk: seq<Node>): (r: Result<string, string>)
    ensures chunk == [] ==> r == Ok("")
    ensures r.Err? ==> r.error in [XpathKey, TypeKey, ListindexKey, OwnerKey]
  {
    CollectSpec(chunk, RenderNode);
    var c := Collect(chunk, RenderNode);
    if c.failure.Some? then Err(c.failure.value) else Ok(Flatten(Reverse(c.done)))
  }

  /** The inner loop: `DataList = DataItem + DataList` for each node. */
  method BuildDataList(chunk: seq<Node>) returns (r: Result<string, string>)
    ensures r == DataList(chunk)
  {
    var acc := "";
    ghost var literals: seq<string> := [];
    var i := 0;
    while i < |chunk|
      invariant 0 <= i <= |chunk|
      invariant Collect(chunk[..i], RenderNode) == Collected(literals, None)
      invariant acc == Flatten(Reverse(literals))
    {
      CollectSnoc(chunk, i, RenderNode);
      var item := RenderNode(chunk[i]);
      if item.Err? {
        CollectPrefixFailed(chunk, i + 1, RenderNode);
        return Err(item.error);
      }
      FlattenReverseSnoc(literals, item.value);
      acc := item.value + acc;
      literals := literals + [item.value];
      i := i + 1;
    }
    assert chunk[..i] == chunk;
    r := Ok(acc);
  }

  /** A slice renders exactly when each of its nodes does. */
  lemma DataListOk(chunk: seq<Node>)
    ensures DataList(chunk).Ok? <==> forall j :: 0 <= j < |chunk| ==> RenderNode(chunk[j]).Ok?
  {
    CollectAllOk(chunk, RenderNode);
  }

  /** Appending a node to a slice that renders puts the node's literal in
      front of the slice's `DataList`. With `DataList([]) == Ok("")` this
      makes the `DataList` of `[r1, ..., rk]` equal to
      `render(rk) + ... + render(r1)`. */
  lemma DataListPrepend(chunk: seq<Node>, node: Node)
    requires DataList(chunk).Ok? && RenderNode(node).Ok?
    ensures DataList(chunk + [node]) == Ok(RenderNode(node).value + DataList(chunk).value)
  {
    var whole := chunk + [node];
    assert whole[..|chunk|] == chunk;
    CollectSnoc(whole, |chunk|, RenderNode);
    assert whole[..|chunk| + 1] == whole;
    FlattenReverseSnoc(Collect(chunk, RenderNode).done, RenderNode(node).value);
  }

  /** Two records that render give one batch text, the second record's
      literal first. */
  lemma DataListOfTwo(first: Node, second: Node)
    requires RenderNode(first).Ok? && RenderNode(second).Ok?
    ensures DataList([first, second]) == Ok(RenderNode(second).value + RenderNode(first).value)
  {
    assert [first] == [] + [first];
    DataListPrepend([], first);
    assert RenderNode(first).value + "" == RenderNode(first).value;
    assert [first, second] == [first] + [second];
    DataListPrepend([first], second);
  }

  /** A slice with a node lacking a required key gives the KeyError of the
      first such node. */
  lemma DataListFirstMissing(chunk: seq<Node>, j: nat)
    requires j < |chunk| && RenderNode(chunk[j]).Err?
    requires forall i :: 0 <= i < j ==> RenderNode(chunk[i]).Ok?
    ensures DataList(chunk) == Err(RenderNode(chunk[j]).error)
  {
    CollectFirstFailure(chunk, RenderNode, j);
  }

  /** The query `_upsert_item` renders for one slice, or the KeyError raised
      before it is sent. */
  function UpsertFor(chunk: seq<Node>): (r: Result<string, string>)
    ensures r.Ok? <==> DataList(chunk).Ok?
    ensures r.Ok? ==> ExtractDataList(r.value) == Some(DataList(chunk).value)
    ensures r.Err? ==> r.error == DataList(chunk).error
  {
    match DataList(chunk)
    case Err(key) => Err(key)
    case Ok(d) => Ok(UpsertQuery(d))
  }

  /** The queries `upsert_node` sends for a parsed list, in order, and the
      KeyError that ends it, if any. */
  function Load(records: seq<Node>): (r: Collected<string, string>)
    ensures r.failure.None? ==> |r.done| == |Trunk(records, ChunkSize)|
    ensures r.failure.Some? ==> |r.done| < |Trunk(records, ChunkSize)|
    ensures forall k :: 0 <= k < |r.done| ==> UpsertFor(Trunk(records, ChunkSize)[k]) == Ok(r.done[k])
  {
    CollectSpec(Trunk(records, ChunkSize), UpsertFor);
    Collect(Trunk(records, ChunkSize), UpsertFor)
  }

  /** When every record has the four required keys, `upsert_node` sends
      ceil(len/10000) queries and raises nothing; query `k` carries the
      literals of records k*10000 up to (k+1)*10000, last one first. */
  lemma LoadAllRender(records: seq<Node>)
    requires forall j :: 0 <= j < |records| ==> RenderNode(records[j]).Ok?
    ensures Load(records).failure.None?
    ensures |Load(records).done| == (|records| + ChunkSize - 1) / ChunkSize
    ensures forall k :: 0 <= k < |Load(records).done| ==>
      k * ChunkSize < |records| &&
      UpsertFor(records[k * ChunkSize .. Min((k + 1) * ChunkSize, |records|)]) == Ok(Load(records).done[k])
  {
    var chunks := Trunk(records, ChunkSize);
    TrunkSizes(records, ChunkSize);
    forall k | 0 <= k < |chunks|
      ensures k * ChunkSize < |records|
      ensures chunks[k] == records[k * ChunkSize .. Min((k + 1) * ChunkSize, |records|)]
      ensures UpsertFor(chunks[k]).Ok?
    {
      TrunkSliceAt(records, ChunkSize, k);
      var chunk := chunks[k];
      assert forall i :: 0 <= i < |chunk| ==> chunk[i] == records[k * ChunkSize + i];
      DataListOk(chunk);
    }
    CollectAllOk(chunks, UpsertFor);
  }

  /** When record `j` is the first without some required key, `upsert_node`
      sends the queries of the slices wholly before it, j/10000 of them,
      and then raises that record's KeyError. */
  lemma LoadFirstMissing(records: seq<Node>, j: nat)
    requires j < |records| && RenderNode(records[j]).Err?
    requires forall i :: 0 <= i < j ==> RenderNode(records[i]).Ok?
    ensures Load(records).failure == Some(RenderNode(records[j]).error)
    ensures |Load(records).done| == j / ChunkSize
    ensures forall k :: 0 <= k < |Load(records).done| ==>
      (k + 1) * ChunkSize <= j &&
      UpsertFor(records[k * ChunkSize .. (k + 1) * ChunkSize]) == Ok(Load(records).done[k])
  {
    var chunks := Trunk(records, ChunkSize);
    var kj := j / ChunkSize;
    SliceOfFirstMissing(records, j);
    forall k | 0 <= k < kj
      ensures UpsertFor(chunks[k]).Ok?
      ensures chunks[k] == records[k * ChunkSize .. (k + 1) * ChunkSize]
    {
      SliceBeforeFirstMissing(records, j, k);
    }
    CollectFirstFailure(chunks, UpsertFor, kj);
    CollectSpec(chunks, UpsertFor);
  }

  /** A slice wholly before the first record that fails is a full slice of
      10000 records and renders. */
  lemma SliceBeforeFirstMissing(records: seq<Node>, j: nat, k: nat)
    requires j < |records|
    requires forall i :: 0 <= i < j ==> RenderNode(records[i]).Ok?
    requires k < j / ChunkSize
    ensures k < |Trunk(records, ChunkSize)|
    ensures (k + 1) * ChunkSize <= j
    ensures Trunk(records, ChunkSize)[k] == records[k * ChunkSize .. (k + 1) * ChunkSize]
    ensures UpsertFor(Trunk(records, ChunkSize)[k]).Ok?
  {
    TrunkSizes(records, ChunkSize);
    var kj := j / ChunkSize;
    assert kj * ChunkSize <= j;
    assert (k + 1) * ChunkSize <= kj * ChunkSize;
    assert kj < |Trunk(records, ChunkSize)|;
    TrunkSliceAt(records, ChunkSize, k);
    var chunk := Trunk(records, ChunkSize)[k];
    assert chunk == records[k * ChunkSize .. (k + 1) * ChunkSize];
    assert forall i :: 0 <= i < |chunk| ==> chunk[i] == records[k * ChunkSize + i];
    DataListOk(chunk);
  }

  /** The slice holding the first record that fails raises that record's
      KeyError. */
  lemma SliceOfFirstMissing(records: seq<Node>, j: nat)
    requires j < |records| && RenderNode(records[j]).Err?
    requires forall i :: 0 <= i < j ==> RenderNode(records[i]).Ok?
    ensures j / ChunkSize < |Trunk(records, ChunkSize)|
    ensures UpsertFor(Trunk(records, ChunkSize)[j / ChunkSize]) == Err(RenderNode(records[j]).error)
  {
    TrunkSizes(records, ChunkSize);
    var kj := j / ChunkSize;
    assert kj * ChunkSize <= j < (kj + 1) * ChunkSize;
    assert kj < |Trunk(records, ChunkSize)|;
    TrunkSliceAt(records, ChunkSize, kj);
    var chunk := Trunk(records, ChunkSize)[kj];
    var off := j - kj * ChunkSize;
    assert chunk == records[kj * ChunkSize .. Min((kj + 1) * ChunkSize, |records|)];
    assert 0 <= off < |chunk|;
    assert chunk[off] == records[j];
    assert forall i :: 0 <= i < off ==> chunk[i] == records[kj * ChunkSize + i];
    DataListFirstMissing(chunk, off);
  }

  /** One POST: the url, the credential text that is base64-encoded into
      the Authorization header, and the GraphQL document of the body. */
  datatype Request = Request(url: string, account: string, query: string)

  /** What `upsert_node` does with a document: it finishes, it logs a YAML
      parse error and returns, or a KeyError escapes from it. */
  datatype UpsertOutcome = Completed | ParseErrorLogged | RaisedKeyError(key: string)

  /** The result of `yaml.load`: the parsed list, or a YAMLError. */
  datatype YamlDocument = Parsed(records: seq<Node>) | YamlError

  class Session {
    const username: string
    const password: string
    const url: string
    /** Every request posted through this session, oldest first. */
    var posted: seq<Request>

    constructor (username: string, password: string, url: string)
      ensures this.username == username && this.password == password && this.url == url
      ensures posted == []
    {
      this.username := username;
      this.password := password;
      this.url := url;
      posted := [];
    }

    /** The requests this session posts for `queries`, in order. */
    function RequestsFor(queries: seq<string>): seq<Request>
    {
      seq(|queries|, k requires 0 <= k < |queries| => Request(url, Account(username, password), queries[k]))
    }

    /** The requests for two runs of queries, one after the other. */
    lemma RequestsForAppend(a: seq<string>, b: seq<string>)
      ensures RequestsFor(a + b) == RequestsFor(a) + RequestsFor(b)
    {
    }

    /** `_post_graphql`: one POST of `query` with this session's credentials. */
    method PostGraphql(query: string)
      modifies this
      ensures posted == old(posted) + [Request(url, Account(username, password), query)]
    {
      var account := Account(username, password);
      posted := posted + [Request(url, account, query)];
    }

    /** `_upsert_item`: one POST of the upsert mutation holding `dataList`. */
    method UpsertItem(dataList: string)
      modifies this
      ensures posted == old(posted) + RequestsFor([UpsertQuery(dataList)])
    {
      var query := UpsertQuery(dataList);
      PostGraphql(query);
    }

    /** `upsert_node`, from the parsed document on: one upsert per slice of
        10000 records, in slice order, until a KeyError escapes. */
    method UpsertNode(doc: YamlDocument) returns (outcome: UpsertOutcome)
      modifies this
      ensures doc.YamlError? ==> outcome == ParseErrorLogged && posted == old(posted)
      ensures doc.Parsed? ==>
        posted == old(posted) + RequestsFor(Load(doc.records).done) &&
        outcome == (if Load(doc.records).failure.None? then Completed
                    else RaisedKeyError(Load(doc.records).failure.value))
    {
      if doc.YamlError? {
        return ParseErrorLogged;
      }
      var chunks := TrunkSlices(doc.records, ChunkSize);
      ghost var sent: seq<string> := [];
      var i := 0;
      while i < |chunks|
        invariant 0 <= i <= |chunks|
        invariant Collect(chunks[..i], UpsertFor) == Collected(sent, None)
        invariant posted == old(posted) + RequestsFor(sent)
      {
        CollectSnoc(chunks, i, UpsertFor);
        var dataList := BuildDataList(chunks[i]);
        if dataList.Err? {
          CollectPrefixFailed(chunks, i + 1, UpsertFor);
          return RaisedKeyError(dataList.error);
        }
        UpsertItem(dataList.value);
        RequestsForAppend(sent, [UpsertQuery(dataList.value)]);
        sent := sent + [UpsertQuery(dataList.value)];
        i := i + 1;
      }
      assert chunks[..i] == chunks;
      outcome := Completed;
    }
  }
}
