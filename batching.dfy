/** The batch both ingestion loops build for the vector store: walk the input
    records in order, derive each record's id, skip records without one, keep
    only the first record for each id, render the kept ones into a document
    and a metadata record, embed the document, and append the four results to
    four parallel lists. `Fold` is that loop written as a function of the
    input; the lemmas below say what the lists it returns contain. */
module Batching {
  import opened PyJson

  /** An embedding vector (the embedding model itself is a parameter). */
  type Vector = seq<real>

  /** The id a record is stored under and the title that goes with it. */
  datatype Ident = Ident(id: Json, title: Json)

  /** The `ids`, `documents`, `embeddings` and `metadatas` lists of an upsert. */
  datatype Batch<M> = Batch(ids: seq<Json>, documents: seq<string>, embeddings: seq<Vector>, metadatas: seq<M>)

  /** What an ingestion run hands to the vector store: nothing because an
      exception escaped the loop, nothing because no record was kept, or one
      upsert of a non-empty batch. */
  datatype Outcome<M> = Raised(error: PyError) | NoUpsert | Upsert(batch: Batch<M>)

  ghost predicate Parallel<M>(b: Batch<M>) {
    |b.ids| == |b.documents| == |b.embeddings| == |b.metadatas|
  }

  /** The set of ids seen so far, under Python equality. */
  function Keys(ids: seq<Json>): (s: set<Json>)
    ensures forall i :: 0 <= i < |ids| ==> HashKey(ids[i]) in s
    ensures forall h :: h in s ==> exists i :: 0 <= i < |ids| && HashKey(ids[i]) == h
  {
    set i | 0 <= i < |ids| :: HashKey(ids[i])
  }

  lemma KeysAppend(ids: seq<Json>, id: Json)
    ensures Keys(ids + [id]) == Keys(ids) + {HashKey(id)}
  {
    var ext := ids + [id];
    forall h | h in Keys(ext) ensures h in Keys(ids) + {HashKey(id)} {
      var i :| 0 <= i < |ext| && HashKey(ext[i]) == h;
      if i < |ids| { assert ext[i] == ids[i]; }
    }
    forall h | h in Keys(ids) ensures h in Keys(ext) {
      var i :| 0 <= i < |ids| && HashKey(ids[i]) == h;
      assert ext[i] == ids[i];
    }
    assert HashKey(ext[|ids|]) == HashKey(id);
  }

  ghost predicate DistinctKeys(ids: seq<Json>) {
    forall i, j :: 0 <= i < j < |ids| ==> HashKey(ids[i]) != HashKey(ids[j])
  }

  /** One iteration of the loop: derive the id (possibly raising), skip a
      record without one, raise on an unhashable id, skip an id already
      seen, otherwise render (possibly raising) and append. */
  function Step<M>(b: Batch<M>, item: Json, key: Json -> Result<Option<Ident>>,
                   render: (Json, Ident) -> Result<(string, M)>, embed: string -> Vector): (r: Result<Batch<M>>)
    ensures key(item).Err? ==> r == Err(key(item).error)
    ensures key(item) == Ok(None) ==> r == Ok(b)
    ensures key(item).Ok? && key(item).value.Some? ==>
              var id := key(item).value.value.id;
              && (!Hashable(id) ==> r == Err(Unhashable))
              && (Hashable(id) && HashKey(id) in Keys(b.ids) ==> r == Ok(b))
              && (r.Ok? ==> HashKey(id) in Keys(r.value.ids))
  {
    var found :- key(item);
    if found.None? then Ok(b)
    else if !Hashable(found.value.id) then Err(Unhashable)
    else if HashKey(found.value.id) in Keys(b.ids) then Ok(b)
    else
      var rendered :- render(item, found.value);
      KeysAppend(b.ids, found.value.id);
      Ok(Batch(b.ids + [found.value.id], b.documents + [rendered.0],
               b.embeddings + [embed(rendered.0)], b.metadatas + [rendered.1]))
  }

  /** The whole loop over `items`: the batch, or the first exception raised. */
  function Fold<M>(items: seq<Json>, key: Json -> Result<Option<Ident>>,
                   render: (Json, Ident) -> Result<(string, M)>, embed: string -> Vector): (r: Result<Batch<M>>)
    ensures r.Ok? ==> Parallel(r.value) && |r.value.ids| <= |items|
    ensures r.Ok? ==> DistinctKeys(r.value.ids)
    ensures r.Ok? ==> forall k :: 0 <= k < |r.value.ids| ==> r.value.embeddings[k] == embed(r.value.documents[k])
    decreases |items|
  {
    if items == [] then Ok(Batch([], [], [], []))
    else
      var b :- Fold(items[..|items| - 1], key, render, embed);
      Step(b, items[|items| - 1], key, render, embed)
  }

  /** `if ids:` — the upsert happens exactly when the loop finished with at
      least one id. */
  function ToOutcome<M>(r: Result<Batch<M>>): (o: Outcome<M>)
    ensures o.Raised? <==> r.Err?
    ensures o.Upsert? <==> r.Ok? && r.value.ids != []
    ensures o.Upsert? ==> o.batch == r.value
  {
    match r
    case Err(e) => Raised(e)
    case Ok(b) => if b.ids == [] then NoUpsert else Upsert(b)
  }

  /** The loop itself: four lists appended to in place and a set of the ids
      seen so far; an exception ends the loop. `key` and `render` are the
      record-specific parts. */
  method BuildBatch<M>(items: seq<Json>, key: Json -> Result<Option<Ident>>,
                       render: (Json, Ident) -> Result<(string, M)>, embed: string -> Vector)
    returns (r: Result<Batch<M>>)
    ensures r == Fold(items, key, render, embed)
  {
    var ids: seq<Json> := [];
    var documents: seq<string> := [];
    var embeddings: seq<Vector> := [];
    var metadatas: seq<M> := [];
    var seen: set<Json> := {};
    for i := 0 to |items|
      invariant Fold(items[..i], key, render, embed) == Ok(Batch(ids, documents, embeddings, metadatas))
      invariant seen == Keys(ids)
    {
      assert items[..i + 1][..i] == items[..i];
      var found := key(items[i]);
      if found.Err? {
        FoldErrorPersists(items, i + 1, key, render, embed);
        return Err(found.error);
      }
      if found.value.Some? {
        var ident := found.value.value;
        if !Hashable(ident.id) {
          FoldErrorPersists(items, i + 1, key, render, embed);
          return Err(Unhashable);
        }
        if HashKey(ident.id) !in seen {
          KeysAppend(ids, ident.id);
          seen := seen + {HashKey(ident.id)};
          var rendered := render(items[i], ident);
          if rendered.Err? {
            FoldErrorPersists(items, i + 1, key, render, embed);
            return Err(rendered.error);
          }
          var (text, meta) := rendered.value;
          ids := ids + [ident.id];
          documents := documents + [text];
          embeddings := embeddings + [embed(text)];
          metadatas := metadatas + [meta];
        }
      }
    }
    assert items[..|items|] == items;
    return Ok(Batch(ids, documents, embeddings, metadatas));
  }

  // ------------------------------------------------------------ origins

  /** Record `j` yields an id equal (under Python equality) to `h`. */
  ghost predicate KeyedAt(items: seq<Json>, key: Json -> Result<Option<Ident>>, j: int, h: Json)
    requires 0 <= j < |items|
  {
    var r := key(items[j]);
    r.Ok? && r.value.Some? && HashKey(r.value.value.id) == h
  }

  /** The index of the first record whose id equals `h`, or `|items|` if none does. */
  ghost function Origin(items: seq<Json>, key: Json -> Result<Option<Ident>>, h: Json): (j: nat)
    ensures j <= |items|
    ensures j < |items| ==> KeyedAt(items, key, j, h)
    ensures forall i :: 0 <= i < j && i < |items| ==> !KeyedAt(items, key, i, h)
    decreases |items|
  {
    if items == [] then 0
    else
      var init := items[..|items| - 1];
      var o := Origin(init, key, h);
      assert forall i :: 0 <= i < |init| ==> KeyedAt(init, key, i, h) == KeyedAt(items, key, i, h);
      if o < |init| then o
      else if KeyedAt(items, key, |init|, h) then |init|
      else |items|
  }

  // ------------------------------------------------------------- lemmas

  /** An exception ends the loop: once a prefix raises, the whole input
      raises the same exception. */
  lemma {:induction false} FoldErrorPersists<M>(items: seq<Json>, i: nat, key: Json -> Result<Option<Ident>>,
                                                render: (Json, Ident) -> Result<(string, M)>,
                                                embed: string -> Vector)
    requires i <= |items| && Fold(items[..i], key, render, embed).Err?
    ensures Fold(items, key, render, embed) == Err(Fold(items[..i], key, render, embed).error)
    decreases |items|
  {
    if i < |items| {
      var init := items[..|items| - 1];
      assert init[..i] == items[..i];
      FoldErrorPersists(init, i, key, render, embed);
    } else {
      assert items[..i] == items;
    }
  }

  /** A loop that finished derived an id (or none) from every record
      without raising. */
  lemma FoldKeysEvery<M>(items: seq<Json>, key: Json -> Result<Option<Ident>>,
                         render: (Json, Ident) -> Result<(string, M)>,
                         embed: string -> Vector, j: nat)
    requires Fold(items, key, render, embed).Ok? && j < |items|
    ensures key(items[j]).Ok?
  {
    var prefix := items[..j + 1];
    assert prefix[..j] == items[..j] && prefix[j] == items[j];
    if key(items[j]).Err? {
      FoldErrorPersists(items, j + 1, key, render, embed);
    }
  }

  /** A record that yields no id contributes nothing, wherever it stands. */
  lemma {:induction false} FoldSkipsUnkeyed<M>(before: seq<Json>, item: Json, after: seq<Json>,
                                               key: Json -> Result<Option<Ident>>,
                                               render: (Json, Ident) -> Result<(string, M)>,
                                               embed: string -> Vector)
    requires key(item) == Ok(None)
    ensures Fold(before + [item] + after, key, render, embed) == Fold(before + after, key, render, embed)
    decreases |after|
  {
    if after == [] {
      assert before + [item] + after == before + [item];
      assert (before + [item])[..|before|] == before;
      assert before + after == before;
    } else {
      var init := after[..|after| - 1];
      FoldSkipsUnkeyed(before, item, init, key, render, embed);
      var whole := before + [item] + after;
      var short := before + after;
      assert whole[..|whole| - 1] == before + [item] + init;
      assert short[..|short| - 1] == before + init;
      assert whole[|whole| - 1] == short[|short| - 1];
      FoldSameLast(whole, short, key, render, embed);
    }
  }

  /** Two inputs that end in the same record and agree before it agree. */
  lemma FoldSameLast<M>(x: seq<Json>, y: seq<Json>, key: Json -> Result<Option<Ident>>,
                        render: (Json, Ident) -> Result<(string, M)>, embed: string -> Vector)
    requires x != [] && y != [] && x[|x| - 1] == y[|y| - 1]
    requires Fold(x[..|x| - 1], key, render, embed) == Fold(y[..|y| - 1], key, render, embed)
    ensures Fold(x, key, render, embed) == Fold(y, key, render, embed)
  {
  }

  /** One iteration either leaves the batch alone or appends exactly one
      entry to each of the four lists, the embedding being that of the new
      document. */
  lemma StepExtends<M>(b: Batch<M>, item: Json, key: Json -> Result<Option<Ident>>,
                       render: (Json, Ident) -> Result<(string, M)>, embed: string -> Vector)
    requires Step(b, item, key, render, embed).Ok?
    ensures var b' := Step(b, item, key, render, embed).value;
            || b' == b
            || (&& |b'.ids| == |b.ids| + 1 && |b'.documents| == |b.documents| + 1
                && |b'.metadatas| == |b.metadatas| + 1
                && b'.ids[..|b.ids|] == b.ids
                && b'.documents[..|b.documents|] == b.documents
                && b'.metadatas[..|b.metadatas|] == b.metadatas
                && b'.embeddings == b.embeddings + [embed(b'.documents[|b.documents|])])
  {
  }

  /** Nothing lost: every record that yields an id has that id, or one equal
      to it, in the batch. */
  lemma {:induction false} FoldComplete<M>(items: seq<Json>, key: Json -> Result<Option<Ident>>,
                                           render: (Json, Ident) -> Result<(string, M)>,
                                           embed: string -> Vector, j: nat)
    requires Fold(items, key, render, embed).Ok?
    requires j < |items| && key(items[j]).Ok? && key(items[j]).value.Some?
    ensures HashKey(key(items[j]).value.value.id) in Keys(Fold(items, key, render, embed).value.ids)
    decreases |items|
  {
    var init := items[..|items| - 1];
    var b0 := Fold(init, key, render, embed).value;
    var b := Fold(items, key, render, embed).value;
    StepExtends(b0, items[|items| - 1], key, render, embed);
    if j < |init| {
      assert init[j] == items[j];
      FoldComplete(init, key, render, embed, j);
      var h := HashKey(key(items[j]).value.value.id);
      var i :| 0 <= i < |b0.ids| && HashKey(b0.ids[i]) == h;
      assert b.ids[i] == b0.ids[i];
    } else {
      var h := HashKey(key(items[j]).value.value.id);
      if h in Keys(b0.ids) {
        assert b == b0;
      } else {
        assert b.ids == b0.ids + [key(items[j]).value.value.id];
        assert HashKey(b.ids[|b0.ids|]) == h;
      }
    }
  }

  /** The id `h` is absent from the batch of `items` only when no record of
      `items` yields it. */
  lemma AbsentKeyHasNoOrigin<M>(items: seq<Json>, key: Json -> Result<Option<Ident>>,
                                render: (Json, Ident) -> Result<(string, M)>,
                                embed: string -> Vector, h: Json)
    requires Fold(items, key, render, embed).Ok?
    requires h !in Keys(Fold(items, key, render, embed).value.ids)
    ensures Origin(items, key, h) == |items|
  {
    var o := Origin(items, key, h);
    if o < |items| {
      FoldComplete(items, key, render, embed, o);
    }
  }

  /** Entry `k` of `b` comes from the first record whose id equals `ids[k]`:
      that record yields exactly `ids[k]` and renders to entry k's document
      and metadata. */
  ghost predicate FromOrigin<M>(items: seq<Json>, key: Json -> Result<Option<Ident>>,
                                render: (Json, Ident) -> Result<(string, M)>, b: Batch<M>, k: int)
  {
    && 0 <= k < |b.ids| && k < |b.documents| && k < |b.metadatas|
    && var j := Origin(items, key, HashKey(b.ids[k]));
       && j < |items|
       && key(items[j]).Ok? && key(items[j]).value.Some?
       && key(items[j]).value.value.id == b.ids[k]
       && render(items[j], key(items[j]).value.value) == Ok((b.documents[k], b.metadatas[k]))
  }

  /** Nothing invented, first occurrence wins, input order kept: every entry
      of the batch comes from its origin (see FromOrigin), and the records
      behind the entries appear in the input in the same order as the
      entries. */
  lemma {:induction false} FoldSound<M>(items: seq<Json>, key: Json -> Result<Option<Ident>>,
                                        render: (Json, Ident) -> Result<(string, M)>,
                                        embed: string -> Vector)
    requires Fold(items, key, render, embed).Ok?
    ensures var b := Fold(items, key, render, embed).value;
            forall k :: 0 <= k < |b.ids| ==> FromOrigin(items, key, render, b, k)
    ensures var b := Fold(items, key, render, embed).value;
            forall k1, k2 :: 0 <= k1 < k2 < |b.ids| ==>
              Origin(items, key, HashKey(b.ids[k1])) < Origin(items, key, HashKey(b.ids[k2]))
    decreases |items|
  {
    if items != [] {
      var n := |items| - 1;
      var init := items[..n];
      var last := items[n];
      var b0 := Fold(init, key, render, embed).value;
      var b := Fold(items, key, render, embed).value;
      FoldSound(init, key, render, embed);
      StepExtends(b0, last, key, render, embed);
      // entries already present keep their origin and their contents
      forall k | 0 <= k < |b0.ids|
        ensures k < |b.ids| && Origin(items, key, HashKey(b.ids[k])) == Origin(init, key, HashKey(b0.ids[k])) < n
        ensures FromOrigin(items, key, render, b, k)
      {
        KeptFromOrigin(items, key, render, embed, k);
      }
      if |b.ids| > |b0.ids| {
        AppendedFromOrigin(items, key, render, embed);
      } else {
        assert b == b0;
      }
    }
  }

  /** An entry built before the last record keeps its origin and contents. */
  lemma KeptFromOrigin<M>(items: seq<Json>, key: Json -> Result<Option<Ident>>,
                          render: (Json, Ident) -> Result<(string, M)>, embed: string -> Vector, k: nat)
    requires items != [] && Fold(items, key, render, embed).Ok?
    requires var b0 := Fold(items[..|items| - 1], key, render, embed);
             b0.Ok? && k < |b0.value.ids| && FromOrigin(items[..|items| - 1], key, render, b0.value, k)
    ensures var init := items[..|items| - 1];
            var b0 := Fold(init, key, render, embed).value;
            var b := Fold(items, key, render, embed).value;
            && k < |b.ids|
            && Origin(items, key, HashKey(b.ids[k])) == Origin(init, key, HashKey(b0.ids[k])) < |items| - 1
            && FromOrigin(items, key, render, b, k)
  {
    var init := items[..|items| - 1];
    var b0 := Fold(init, key, render, embed).value;
    var b := Fold(items, key, render, embed).value;
    StepExtends(b0, items[|items| - 1], key, render, embed);
    assert b.ids[k] == b0.ids[k];
    assert b.documents[k] == b0.documents[k] && b.metadatas[k] == b0.metadatas[k];
    var h := HashKey(b0.ids[k]);
    OriginOfPrefix(items, key, h);
    var j := Origin(init, key, h);
    assert items[j] == init[j];
  }

  /** An entry appended for the last record has that record as its origin. */
  lemma AppendedFromOrigin<M>(items: seq<Json>, key: Json -> Result<Option<Ident>>,
                              render: (Json, Ident) -> Result<(string, M)>, embed: string -> Vector)
    requires items != [] && Fold(items, key, render, embed).Ok?
    requires var b0 := Fold(items[..|items| - 1], key, render, embed);
             b0.Ok? && |b0.value.ids| < |Fold(items, key, render, embed).value.ids|
    ensures var b0 := Fold(items[..|items| - 1], key, render, embed).value;
            var b := Fold(items, key, render, embed).value;
            && |b.ids| == |b0.ids| + 1
            && Origin(items, key, HashKey(b.ids[|b0.ids|])) == |items| - 1
            && FromOrigin(items, key, render, b, |b0.ids|)
  {
    var n := |items| - 1;
    var init := items[..n];
    var last := items[n];
    var b0 := Fold(init, key, render, embed).value;
    var b := Fold(items, key, render, embed).value;
    var found := key(last).value.value;
    var h := HashKey(found.id);
    assert b.ids == b0.ids + [found.id];
    AbsentKeyHasNoOrigin(init, key, render, embed, h);
    assert KeyedAt(items, key, n, h);
    assert Origin(items, key, h) == n;
    assert b.ids[|b0.ids|] == found.id;
  }

  /** An id first yielded within all but the last record has the same origin
      in the whole input. */
  lemma OriginOfPrefix(items: seq<Json>, key: Json -> Result<Option<Ident>>, h: Json)
    requires items != [] && Origin(items[..|items| - 1], key, h) < |items| - 1
    ensures Origin(items, key, h) == Origin(items[..|items| - 1], key, h)
  {
  }
}
