/** The catalogue script insert.py: the union of every record's
    `tools_and_technologies`, sorted, one `{"tool_name": t}` document per
    tool, inserted only when there is at least one. The database and its
    unique index are not part of this model. */
module InsertTools {
  import opened PyJson

  const ToolsField := "tools_and_technologies"

  /** A document `{"tool_name": toolName}`. */
  datatype ToolDoc = ToolDoc(toolName: Json)

  /** How the script ends: an exception, "No tools found to insert.", or one
      `insert_many` call with the documents in order. */
  datatype InsertOutcome =
    | Raised(error: PyError)
    | NoTools
    | InsertMany(docs: seq<ToolDoc>)

  // ------------------------------------------------------------ collecting

  /** `item.get('tools_and_technologies', [])`, iterated as `set.update` does. */
  function ToolsOf(item: Json): (r: Result<seq<Json>>)
    ensures !item.JObj? ==> r == Err(NoAttribute)
    ensures item.JObj? && !Has(item.fields, ToolsField) ==> r == Ok([])
    ensures item.JObj? && Has(item.fields, ToolsField) ==> r == Elements(Value(item.fields, ToolsField))
  {
    if item.JObj? then Elements(Get(item.fields, ToolsField, JList([]))) else Err(NoAttribute)
  }

  /** Some element of `tools` equals `x` under Python equality. */
  predicate Keyed(tools: seq<Json>, x: Json) {
    exists t :: t in tools && HashKey(t) == x
  }

  /** Every tool can be put in a set. */
  predicate AllHashable(tools: seq<Json>) {
    tools == [] || (Hashable(tools[0]) && AllHashable(tools[1..]))
  }

  lemma {:induction false} AllHashableMeans(tools: seq<Json>)
    ensures AllHashable(tools) <==> forall t :: t in tools ==> Hashable(t)
    decreases |tools|
  {
    if tools != [] {
      AllHashableMeans(tools[1..]);
      assert forall t :: t in tools ==> t == tools[0] || t in tools[1..];
    }
  }

  /** A record whose tools can all be put in a set. */
  predicate Collectable(item: Json) {
    ToolsOf(item).Ok? && AllHashable(ToolsOf(item).value)
  }

  /** Some record of `items` lists a tool equal to `x`. */
  predicate Listed(items: seq<Json>, x: Json) {
    exists j :: 0 <= j < |items| && ToolsOf(items[j]).Ok? && Keyed(ToolsOf(items[j]).value, x)
  }

  predicate Distinct(s: seq<Json>) {
    forall i, j :: 0 <= i < j < |s| ==> s[i] != s[j]
  }

  lemma KeyedCons(tools: seq<Json>, x: Json)
    requires tools != []
    ensures Keyed(tools, x) <==> HashKey(tools[0]) == x || Keyed(tools[1..], x)
  {
    if Keyed(tools, x) && HashKey(tools[0]) != x {
      var t :| t in tools && HashKey(t) == x;
      var i :| 0 <= i < |tools| && tools[i] == t;
      assert i > 0 && tools[1..][i - 1] == t;
    }
    if Keyed(tools[1..], x) {
      var t :| t in tools[1..] && HashKey(t) == x;
      assert t in tools;
    }
  }

  /** `acc.update(tools)` on a set kept as a sequence of its distinct keys:
      raises on the first unhashable tool, otherwise adds every tool's key. */
  function AddAll(acc: seq<Json>, tools: seq<Json>): (r: Result<seq<Json>>)
    ensures r.Ok? <==> AllHashable(tools)
    ensures r.Err? ==> r.error == Unhashable
    ensures r.Ok? ==> forall x :: x in r.value <==> x in acc || Keyed(tools, x)
    ensures r.Ok? && Distinct(acc) ==> Distinct(r.value)
    decreases |tools|
  {
    if tools == [] then Ok(acc)
    else if !Hashable(tools[0]) then Err(Unhashable)
    else
      var k := HashKey(tools[0]);
      var next := if k in acc then acc else acc + [k];
      assert forall t :: t in tools[1..] ==> t in tools;
      assert forall t :: t in tools ==> t == tools[0] || t in tools[1..];
      forall x ensures Keyed(tools, x) <==> k == x || Keyed(tools[1..], x) {
        KeyedCons(tools, x);
      }
      AddAll(next, tools[1..])
  }

  lemma ListedSnoc(items: seq<Json>, x: Json)
    requires items != []
    ensures var init := items[..|items| - 1];
            var last := items[|items| - 1];
            Listed(items, x) <==> Listed(init, x) || (ToolsOf(last).Ok? && Keyed(ToolsOf(last).value, x))
  {
    var init := items[..|items| - 1];
    if Listed(init, x) {
      var j :| 0 <= j < |init| && ToolsOf(init[j]).Ok? && Keyed(ToolsOf(init[j]).value, x);
      assert items[j] == init[j];
    }
    if Listed(items, x) {
      var j :| 0 <= j < |items| && ToolsOf(items[j]).Ok? && Keyed(ToolsOf(items[j]).value, x);
      if j < |init| {
        assert init[j] == items[j];
      }
    }
  }

  /** The loop over the records: the distinct tools in the order first
      seen, or the first exception raised. */
  function Collected(items: seq<Json>): (r: Result<seq<Json>>)
    ensures r.Err? ==> r.error == NoAttribute || r.error == NotIterable || r.error == Unhashable
    decreases |items|
  {
    if items == [] then Ok([])
    else
      var unique :- Collected(items[..|items| - 1]);
      var tools :- ToolsOf(items[|items| - 1]);
      AddAll(unique, tools)
  }

  /** The loop finishes exactly when every record's tools can be collected. */
  lemma {:induction false} CollectedSucceeds(items: seq<Json>)
    ensures Collected(items).Ok? <==> forall j :: 0 <= j < |items| ==> Collectable(items[j])
  {
    CollectedSucceedsPrefix(items);
    AllCollectableMeans(items);
  }

  /** Every record's tools can be collected, stated record by record from
      the end. */
  predicate AllCollectable(items: seq<Json>)
    decreases |items|
  {
    items == [] || (AllCollectable(items[..|items| - 1]) && Collectable(items[|items| - 1]))
  }

  lemma {:induction false} CollectedSucceedsPrefix(items: seq<Json>)
    ensures Collected(items).Ok? <==> AllCollectable(items)
    decreases |items|
  {
    if items != [] {
      CollectedSucceedsPrefix(items[..|items| - 1]);
      CollectedStep(items);
    }
  }

  lemma {:induction false} AllCollectableMeans(items: seq<Json>)
    ensures AllCollectable(items) <==> forall j :: 0 <= j < |items| ==> Collectable(items[j])
    decreases |items|
  {
    if items != [] {
      var n := |items| - 1;
      var init := items[..n];
      AllCollectableMeans(init);
      assert forall j :: 0 <= j < n ==> init[j] == items[j];
    }
  }

  /** One more record: the loop still finishes exactly when it did before
      and the new record's tools can be collected. */
  lemma CollectedStep(items: seq<Json>)
    requires items != []
    ensures Collected(items).Ok? <==>
              Collected(items[..|items| - 1]).Ok? && Collectable(items[|items| - 1])
  {
  }

  /** The collected tools hold no two equal values. */
  lemma {:induction false} CollectedDistinct(items: seq<Json>)
    requires Collected(items).Ok?
    ensures Distinct(Collected(items).value)
    decreases |items|
  {
    if items != [] {
      CollectedDistinct(items[..|items| - 1]);
    }
  }

  /** The collected tools are exactly those some record lists. */
  lemma {:induction false} CollectedMembers(items: seq<Json>)
    requires Collected(items).Ok?
    ensures forall x :: x in Collected(items).value <==> Listed(items, x)
    decreases |items|
  {
    if items != [] {
      var init := items[..|items| - 1];
      CollectedMembers(init);
      forall x ensures x in Collected(items).value <==> Listed(items, x) {
        ListedSnoc(items, x);
      }
    } else {
      forall x ensures !Listed(items, x) {
      }
    }
  }

  // --------------------------------------------------------------- sorting

  /** `a < b` on strings: lexicographic by code point, a proper prefix
      first. */
  predicate StrLt(a: string, b: string)
    ensures |a| < |b| && a == b[..|a|] ==> StrLt(a, b)
  {
    if |a| == 0 then |b| > 0
    else if |b| == 0 then false
    else if a[0] != b[0] then a[0] < b[0]
    else
      assert |a| < |b| && a == b[..|a|] ==> a[1..] == b[1..][..|a| - 1];
      StrLt(a[1..], b[1..])
  }

  lemma {:induction false} StrLtIrreflexive(a: string)
    ensures !StrLt(a, a)
  {
    if a != [] {
      StrLtIrreflexive(a[1..]);
    }
  }

  lemma {:induction false} StrLtTransitive(a: string, b: string, c: string)
    requires StrLt(a, b) && StrLt(b, c)
    ensures StrLt(a, c)
  {
    if |a| > 0 && a[0] == b[0] && b[0] == c[0] {
      StrLtTransitive(a[1..], b[1..], c[1..]);
    }
  }

  lemma {:induction false} StrLtTotal(a: string, b: string)
    requires a != b
    ensures StrLt(a, b) || StrLt(b, a)
  {
    if |a| > 0 && |b| > 0 && a[0] == b[0] {
      assert a == [a[0]] + a[1..] && b == [b[0]] + b[1..];
      StrLtTotal(a[1..], b[1..]);
    }
  }

  /** The values `<` can compare among the keys of a set of tools: two
      strings or two numbers. */
  predicate Comparable(a: Json, b: Json) {
    (a.JStr? && b.JStr?) || (a.JNum? && b.JNum?)
  }

  predicate Less(a: Json, b: Json)
    ensures Less(a, b) ==> Comparable(a, b)
  {
    (a.JStr? && b.JStr? && StrLt(a.s, b.s)) || (a.JNum? && b.JNum? && a.n < b.n)
  }

  lemma LessTransitive(a: Json, b: Json, c: Json)
    requires Less(a, b) && Less(b, c)
    ensures Less(a, c)
  {
    if a.JStr? {
      StrLtTransitive(a.s, b.s, c.s);
    }
  }

  lemma LessTotal(a: Json, b: Json)
    requires Comparable(a, b) && a != b
    ensures Less(a, b) || Less(b, a)
  {
    if a.JStr? {
      StrLtTotal(a.s, b.s);
    }
  }

  lemma LessIrreflexive(a: Json)
    ensures !Less(a, a)
  {
    if a.JStr? {
      StrLtIrreflexive(a.s);
    }
  }

  /** `sorted` succeeds: it compares nothing for fewer than two values,
      otherwise every two values it is given must be comparable. */
  predicate Orderable(s: seq<Json>)
    ensures Orderable(s) && |s| >= 2 ==>
              (forall i :: 0 <= i < |s| ==> s[i].JStr?) || (forall i :: 0 <= i < |s| ==> s[i].JNum?)
  {
    |s| <= 1 || forall i, j :: 0 <= i < |s| && 0 <= j < |s| ==> Comparable(s[i], s[j])
  }

  predicate StrictlySorted(s: seq<Json>) {
    forall i, j :: 0 <= i < j < |s| ==> Less(s[i], s[j])
  }

  lemma SortedCons(h: Json, s: seq<Json>)
    requires StrictlySorted(s) && forall y :: y in s ==> Less(h, y)
    ensures StrictlySorted([h] + s)
  {
    forall i, j | 0 <= i < j < |[h] + s| ensures Less(([h] + s)[i], ([h] + s)[j]) {
      assert ([h] + s)[j] == s[j - 1];
      if i > 0 {
        assert ([h] + s)[i] == s[i - 1];
      }
    }
  }

  function InsertSorted(x: Json, s: seq<Json>): (r: seq<Json>)
    requires StrictlySorted(s) && x !in s
    requires forall y :: y in s ==> Comparable(x, y)
    ensures StrictlySorted(r)
    ensures multiset(r) == multiset(s) + multiset{x}
    decreases |s|
  {
    if s == [] then [x]
    else if Less(x, s[0]) then
      forall y | y in s ensures Less(x, y) {
        if y != s[0] {
          LessTransitive(x, s[0], y);
        }
      }
      SortedCons(x, s);
      [x] + s
    else
      LessTotal(x, s[0]);
      assert s == [s[0]] + s[1..];
      var rest := InsertSorted(x, s[1..]);
      forall y | y in rest ensures Less(s[0], y) {
        assert y in multiset(rest);
      }
      SortedCons(s[0], rest);
      [s[0]] + rest
  }

  /** `sorted(...)` of distinct, mutually comparable keys. */
  function SortKeys(s: seq<Json>): (r: seq<Json>)
    requires Distinct(s) && Orderable(s)
    ensures StrictlySorted(r)
    ensures multiset(r) == multiset(s)
    decreases |s|
  {
    if s == [] then []
    else
      assert s == [s[0]] + s[1..];
      var rest := SortKeys(s[1..]);
      forall y | y in rest ensures y in s[1..] {
        assert y in multiset(rest);
      }
      InsertSorted(s[0], rest)
  }

  lemma HeadIsMember(s: seq<Json>)
    ensures s != [] ==> s[0] in s
  {
  }

  /** Two strictly sorted sequences with the same elements are equal: the
      order in which the set was filled cannot change the documents. */
  lemma {:induction false} SortedUnique(a: seq<Json>, b: seq<Json>)
    requires StrictlySorted(a) && StrictlySorted(b)
    requires forall x :: x in a <==> x in b
    ensures a == b
    decreases |a|
  {
    if a != [] && b != [] {
      if a[0] != b[0] {
        assert a[0] in a && b[0] in b;
        var i :| 0 <= i < |b| && b[i] == a[0];
        var j :| 0 <= j < |a| && a[j] == b[0];
        assert 0 < i && 0 < j;
        LessTransitive(a[0], a[j], a[0]);
        LessIrreflexive(a[0]);
      }
      forall x ensures x in a[1..] <==> x in b[1..] {
        if x in a[1..] {
          var i :| 0 <= i < |a[1..]| && a[1..][i] == x;
          assert Less(a[0], x);
          LessIrreflexive(x);
          assert x in b && x != b[0];
          var k :| 0 <= k < |b| && b[k] == x;
          assert b[1..][k - 1] == x;
        }
        if x in b[1..] {
          var i :| 0 <= i < |b[1..]| && b[1..][i] == x;
          assert Less(b[0], x);
          LessIrreflexive(x);
          assert x in a && x != a[0];
          var k :| 0 <= k < |a| && a[k] == x;
          assert a[1..][k - 1] == x;
        }
      }
      SortedUnique(a[1..], b[1..]);
      assert a == [a[0]] + a[1..] && b == [b[0]] + b[1..];
    } else {
      HeadIsMember(a);
      HeadIsMember(b);
    }
  }

  /** The documents do not depend on the order in which the set happened to
      hold its tools. */
  lemma SetOrderIrrelevant(u: seq<Json>, v: seq<Json>)
    requires Distinct(u) && Orderable(u) && Distinct(v) && Orderable(v)
    requires forall x :: x in u <==> x in v
    ensures SortKeys(u) == SortKeys(v)
  {
    var su := SortKeys(u);
    var sv := SortKeys(v);
    forall x ensures x in su <==> x in sv {
      assert x in su <==> x in multiset(su);
      assert x in sv <==> x in multiset(sv);
      assert x in u <==> x in multiset(u);
      assert x in v <==> x in multiset(v);
    }
    SortedUnique(su, sv);
  }

  // ---------------------------------------------------------------- script

  /** `[{"tool_name": tool} for tool in ...]`. */
  function Docs(tools: seq<Json>): (r: seq<ToolDoc>)
    ensures |r| == |tools| && forall i :: 0 <= i < |r| ==> r[i].toolName == tools[i]
  {
    seq(|tools|, i requires 0 <= i < |tools| => ToolDoc(tools[i]))
  }

  /** The script from the loaded file to what it sends to the database. */
  function Script(data: Json): (r: InsertOutcome)
    ensures r.InsertMany? ==> r.docs != []
    ensures r.Raised? <==>
              || Elements(data).Err?
              || Collected(Elements(data).value).Err?
              || !Orderable(Collected(Elements(data).value).value)
  {
    match Elements(data)
    case Err(e) => Raised(e)
    case Ok(items) =>
      match Collected(items)
      case Err(e) => Raised(e)
      case Ok(unique) =>
        if !Orderable(unique) then Raised(Unorderable)
        else
          CollectedDistinct(items);
          var docs := Docs(SortKeys(unique));
          if docs == [] then NoTools else InsertMany(docs)
  }

  lemma {:induction false} CollectedErrorPersists(items: seq<Json>, i: nat)
    requires i <= |items| && Collected(items[..i]).Err?
    ensures Collected(items) == Err(Collected(items[..i]).error)
    decreases |items|
  {
    if i < |items| {
      var init := items[..|items| - 1];
      assert init[..i] == items[..i];
      CollectedErrorPersists(init, i);
    } else {
      assert items[..i] == items;
    }
  }

  /** The loop of the script: the set filled record by record. */
  method CollectTools(items: seq<Json>) returns (r: Result<seq<Json>>)
    ensures r == Collected(items)
  {
    var unique: seq<Json> := [];
    for i := 0 to |items|
      invariant Collected(items[..i]) == Ok(unique)
    {
      assert items[..i + 1][..i] == items[..i];
      var tools := ToolsOf(items[i]);
      if tools.Err? {
        CollectedErrorPersists(items, i + 1);
        return Err(tools.error);
      }
      var added := AddAll(unique, tools.value);
      if added.Err? {
        CollectedErrorPersists(items, i + 1);
        return Err(added.error);
      }
      unique := added.value;
    }
    assert items[..|items|] == items;
    return Ok(unique);
  }

  /** The script: collect, sort, and insert a non-empty list of documents. */
  method InsertScript(data: Json) returns (r: InsertOutcome)
    ensures r == Script(data)
  {
    var items := Elements(data);
    if items.Err? {
      return Raised(items.error);
    }
    var unique := CollectTools(items.value);
    if unique.Err? {
      return Raised(unique.error);
    }
    if !Orderable(unique.value) {
      return Raised(Unorderable);
    }
    CollectedDistinct(items.value);
    var docs := Docs(SortKeys(unique.value));
    if docs == [] {
      return NoTools;
    }
    return InsertMany(docs);
  }

  /** What is inserted: one document per distinct tool any record lists, in
      strictly ascending order. */
  lemma ScriptInserts(data: Json)
    requires Elements(data).Ok? && Script(data).InsertMany?
    ensures var docs := Script(data).docs;
            && (forall i, j :: 0 <= i < j < |docs| ==> Less(docs[i].toolName, docs[j].toolName))
            && forall x :: (exists i :: 0 <= i < |docs| && docs[i].toolName == x) <==> Listed(Elements(data).value, x)
  {
    var items := Elements(data).value;
    var c := Collected(items).value;
    CollectedDistinct(items);
    CollectedMembers(items);
    var sorted := SortKeys(c);
    assert Script(data).docs == Docs(sorted);
    forall x ensures (exists i :: 0 <= i < |sorted| && Docs(sorted)[i].toolName == x) <==> x in c {
      assert x in sorted <==> x in multiset(sorted);
      assert x in c <==> x in multiset(c);
      if x in sorted {
        var i :| 0 <= i < |sorted| && sorted[i] == x;
        assert Docs(sorted)[i].toolName == x;
      }
    }
  }

  /** Nothing is inserted exactly when every record is readable and none
      lists a tool. */
  lemma ScriptInsertsNothing(data: Json)
    requires Elements(data).Ok?
    ensures var items := Elements(data).value;
            Script(data).NoTools? <==>
              (forall j :: 0 <= j < |items| ==> Collectable(items[j])) && forall x :: !Listed(items, x)
  {
    var items := Elements(data).value;
    CollectedSucceeds(items);
    var c := Collected(items);
    if c.Ok? {
      CollectedDistinct(items);
      CollectedMembers(items);
      if c.value == [] {
        forall x ensures !Listed(items, x) {
          assert x !in c.value;
        }
      } else {
        assert c.value[0] in c.value && Listed(items, c.value[0]);
        if Orderable(c.value) {
          assert |SortKeys(c.value)| == |c.value| by {
            assert |multiset(SortKeys(c.value))| == |multiset(c.value)|;
          }
        }
      }
    }
  }
}
