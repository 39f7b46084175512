/** The three Jinja2 templates of Infradb_api.py as literal text. None of
    them escapes anything, so each renders as plain concatenation of its
    fixed text around the values. */
module Templates {
  import opened Wrappers

  /** Splits `s` at its first occurrence of `c`: the text before it, and the
      rest, which starts with `c`. */
  function SplitAt(c: char, s: string): (r: Option<(string, string)>)
    ensures r.None? <==> c !in s
    ensures r.Some? ==>
      s == r.value.0 + r.value.1 && c !in r.value.0 && |r.value.1| > 0 && r.value.1[0] == c
  {
    if s == [] then None
    else if s[0] == c then Some(([], s))
    else match SplitAt(c, s[1..])
      case None => None
      case Some((before, rest)) => Some(([s[0]] + before, rest))
  }

  /** Splitting a text that carries no `c` followed by one that starts with
      `c` recovers the two. */
  lemma {:induction false} SplitAtJoin(c: char, before: string, rest: string)
    requires c !in before && |rest| > 0 && rest[0] == c
    ensures SplitAt(c, before + rest) == Some((before, rest))
  {
    if before != [] {
      assert (before + rest)[1..] == before[1..] + rest;
      SplitAtJoin(c, before[1..], rest);
      assert [before[0]] + before[1..] == before;
    } else {
      assert before + rest == rest;
    }
  }

  /** Removes the literal `lit` from the front of `s`. */
  function Expect(lit: string, s: string): (r: Option<string>)
    ensures r.Some? <==> lit <= s
    ensures r.Some? ==> s == lit + r.value
  {
    if lit <= s then Some(s[|lit|..]) else None
  }

  // ---- ACCOUNT_Template: '{{username}}:{{password}}' ----

  /** The credential text that is base64-encoded into the Authorization
      header. */
  function Account(username: string, password: string): (r: string)
    ensures |r| == |username| + 1 + |password|
    ensures r[..|username|] == username && r[|username|] == ':' && r[|username| + 1..] == password
  {
    username + ":" + password
  }

  /** Reads an account text back at its first colon. */
  function SplitAccount(account: string): Option<(string, string)>
  {
    match SplitAt(':', account)
    case None => None
    case Some((username, rest)) => Some((username, rest[1..]))
  }

  /** A user name without a colon is recovered from the account text, and so
      is the password, whatever it holds. */
  lemma AccountRoundTrip(username: string, password: string)
    requires ':' !in username
    ensures SplitAccount(Account(username, password)) == Some((username, password))
  {
    assert Account(username, password) == username + (":" + password);
    SplitAtJoin(':', username, ":" + password);
  }

  /** A colon in the user name makes two credentials share one account
      text. */
  lemma AccountColonCollision()
    ensures ("a:", "b") != ("a", ":b") && Account("a:", "b") == Account("a", ":b")
  {
  }

  // ---- DataItem_Template ----

  /** The fixed text of DataItem_Template around its six fields; the second
      line of the template starts with 28 spaces. */
  const ItemOpen := "{ xpath: \""
  const ItemAfterXpath := "\", type: \""
  const ItemAfterType := "\", \n                            attr: \""
  const ItemAfterAttr := "\",value: \""
  const ItemAfterValue := "\",listindex:\""
  const ItemAfterListindex := "\",owner:\""
  const ItemClose := "\"}"

  /** The six values DataItem_Template is rendered with; `kind` is the
      record's `type`. */
  datatype Item = Item(xpath: string, kind: string, attr: string, value: string,
                       listindex: string, owner: string)

  /** One record literal. */
  function RenderItem(it: Item): (r: string)
    ensures |r| >= |ItemOpen| + |it.xpath| + |ItemClose|
    ensures r[..|ItemOpen|] == ItemOpen && r[|r| - |ItemClose|..] == ItemClose
    ensures r[|ItemOpen|..|ItemOpen| + |it.xpath|] == it.xpath
  {
    ItemOpen + (it.xpath + (ItemAfterXpath + (it.kind + (ItemAfterType + (it.attr +
    (ItemAfterAttr + (it.value + (ItemAfterValue + (it.listindex +
    (ItemAfterListindex + (it.owner + ItemClose)))))))))))
  }

  predicate QuoteFree(it: Item)
  {
    '"' !in it.xpath && '"' !in it.kind && '"' !in it.attr &&
    '"' !in it.value && '"' !in it.listindex && '"' !in it.owner
  }

  /** Reads one record literal back: each field runs up to the next double
      quote. */
  function ParseItem(s: string): Option<Item>
  {
    var s0 :- Expect(ItemOpen, s);
    var xpath :- SplitAt('"', s0);
    var s1 :- Expect(ItemAfterXpath, xpath.1);
    var kind :- SplitAt('"', s1);
    var s2 :- Expect(ItemAfterType, kind.1);
    var attr :- SplitAt('"', s2);
    var s3 :- Expect(ItemAfterAttr, attr.1);
    var value :- SplitAt('"', s3);
    var s4 :- Expect(ItemAfterValue, value.1);
    var listindex :- SplitAt('"', s4);
    var s5 :- Expect(ItemAfterListindex, listindex.1);
    var owner :- SplitAt('"', s5);
    var s6 :- Expect(ItemClose, owner.1);
    if s6 == [] then Some(Item(xpath.0, kind.0, attr.0, value.0, listindex.0, owner.0))
    else None
  }

  lemma ExpectJoin(lit: string, rest: string)
    ensures Expect(lit, lit + rest) == Some(rest)
  {
    assert (lit + rest)[..|lit|] == lit;
    assert (lit + rest)[|lit|..] == rest;
  }

  /** Field values without double quotes are copied into the literal
      verbatim and in their places: reading it back gives the item. */
  lemma RenderItemRoundTrip(it: Item)
    requires QuoteFree(it)
    ensures ParseItem(RenderItem(it)) == Some(it)
  {
    var t6 := ItemClose;
    var t5 := ItemAfterListindex + (it.owner + t6);
    var t4 := ItemAfterValue + (it.listindex + t5);
    var t3 := ItemAfterAttr + (it.value + t4);
    var t2 := ItemAfterType + (it.attr + t3);
    var t1 := ItemAfterXpath + (it.kind + t2);
    ExpectJoin(ItemOpen, it.xpath + t1);
    SplitAtJoin('"', it.xpath, t1);
    ExpectJoin(ItemAfterXpath, it.kind + t2);
    SplitAtJoin('"', it.kind, t2);
    ExpectJoin(ItemAfterType, it.attr + t3);
    SplitAtJoin('"', it.attr, t3);
    ExpectJoin(ItemAfterAttr, it.value + t4);
    SplitAtJoin('"', it.value, t4);
    ExpectJoin(ItemAfterValue, it.listindex + t5);
    SplitAtJoin('"', it.listindex, t5);
    ExpectJoin(ItemAfterListindex, it.owner + t6);
    SplitAtJoin('"', it.owner, t6);
    ExpectJoin(ItemClose, []);
    assert ItemClose + [] == ItemClose;
  }

  /** Values go in unescaped, so a double quote inside one field can make a
      literal indistinguishable from one with different fields. */
  lemma RenderItemQuoteCollision()
    ensures
      var a := Item("a\", type: \"b", "c", "", "", "0", "x");
      var b := Item("a", "b\", type: \"c", "", "", "0", "x");
      a != b && RenderItem(a) == RenderItem(b)
  {
    var a := Item("a\", type: \"b", "c", "", "", "0", "x");
    var b := Item("a", "b\", type: \"c", "", "", "0", "x");
    var tail := ItemAfterType + ("" + (ItemAfterAttr + ("" + (ItemAfterValue + ("0" +
      (ItemAfterListindex + ("x" + ItemClose)))))));
    assert a.xpath + (ItemAfterXpath + (a.kind + tail)) == (a.xpath + ItemAfterXpath + a.kind) + tail;
    assert b.xpath + (ItemAfterXpath + (b.kind + tail)) == (b.xpath + ItemAfterXpath + b.kind) + tail;
    assert a.xpath + ItemAfterXpath + a.kind == b.xpath + ItemAfterXpath + b.kind;
  }

  // ---- NODE_UPSERT_TEMPLATE ----

  /** The fixed text of NODE_UPSERT_TEMPLATE before and after
      `{{ DataList }}`. Jinja2 drops the single newline that ends a template
      source, so the rendered query ends with the closing brace. */
  const UpsertOpen := "\nmutation upsert_node {\n  insert_table_pub_node(objects:["
  const UpsertClose := "], on_conflict: {constraint: node_complex_unique_constraint}) {\n    affected_rows\n    returning {\n      type\n    }\n  }\n}"

  /** The upsert mutation carrying one batch of record literals. */
  function UpsertQuery(dataList: string): (r: string)
    ensures |r| == |UpsertOpen| + |dataList| + |UpsertClose|
    ensures r[..|UpsertOpen|] == UpsertOpen && r[|r| - |UpsertClose|..] == UpsertClose
    ensures r[|UpsertOpen|..|r| - |UpsertClose|] == dataList
  {
    UpsertOpen + dataList + UpsertClose
  }

  /** What stands between `objects:[` and the constraint clause of an
      upsert query. */
  function ExtractDataList(query: string): Option<string>
  {
    if |query| >= |UpsertOpen| + |UpsertClose| &&
       query[..|UpsertOpen|] == UpsertOpen &&
       query[|query| - |UpsertClose|..] == UpsertClose
    then Some(query[|UpsertOpen|..|query| - |UpsertClose|])
    else None
  }

  /** The batch text goes into the query verbatim and can be read back, so
      distinct batches give distinct queries. */
  lemma UpsertQueryRoundTrip(dataList: string)
    ensures ExtractDataList(UpsertQuery(dataList)) == Some(dataList)
  {
    var q := UpsertQuery(dataList);
    assert q[..|UpsertOpen|] == UpsertOpen;
    assert q[|q| - |UpsertClose|..] == UpsertClose;
    assert q[|UpsertOpen|..|q| - |UpsertClose|] == dataList;
  }
}
