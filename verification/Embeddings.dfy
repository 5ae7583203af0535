/**
 Embedding texts through a cache, in batches, with a fallback for the batches that fail.
*/
module Embeddings {
  import opened Model

  type Vector = seq<real>

  /** The remote embedder at its n-th call: `None` when the request fails. */
  type Remote = (nat, seq<string>) -> Option<seq<Vector>>

  type Fallback = seq<string> -> seq<Vector>

  /** What a vector may be for a text, as a relation: equal to a map's value, or either of two maps' values. */
  type Fit = (string, Vector) -> bool

  predicate AllFit(fit: Fit, texts: seq<string>, vectors: seq<Vector>) {
    |vectors| == |texts| && forall i | 0 <= i < |texts| :: fit(texts[i], vectors[i])
  }

  ghost predicate Conforms(fit: Fit, remote: Remote, fallback: Fallback) {
    && (forall n, batch | remote(n, batch).Some? :: AllFit(fit, batch, remote(n, batch).value))
    && (forall batch :: AllFit(fit, batch, fallback(batch)))
  }

  predicate CacheFits(fit: Fit, cache: map<string, Vector>) {
    forall t | t in cache :: fit(t, cache[t])
  }

  /** The positions among the first `n` whose text is not cached, in order. */
  function Missing(texts: seq<string>, cache: map<string, Vector>, n: nat): seq<nat>
    requires n <= |texts|
  {
    if n == 0 then []
    else if texts[n - 1] in cache then Missing(texts, cache, n - 1)
    else Missing(texts, cache, n - 1) + [n - 1]
  }

  lemma {:induction false} MissingExactly(texts: seq<string>, cache: map<string, Vector>, n: nat)
    requires n <= |texts|
    ensures PositionsOf(Missing(texts, cache, n), texts)
    ensures forall i :: i in Missing(texts, cache, n) <==> 0 <= i < n && texts[i] !in cache
    ensures forall x, y | 0 <= x < y < |Missing(texts, cache, n)| ::
        Missing(texts, cache, n)[x] < Missing(texts, cache, n)[y]
  {
    if n > 0 {
      MissingExactly(texts, cache, n - 1);
      var before := Missing(texts, cache, n - 1);
      assert forall x | 0 <= x < |before| :: before[x] in before;
    }
  }

  predicate PositionsOf(positions: seq<nat>, texts: seq<string>) {
    forall j | 0 <= j < |positions| :: positions[j] < |texts|
  }

  function TextsAt(texts: seq<string>, positions: seq<nat>): seq<string>
    requires PositionsOf(positions, texts)
  {
    seq(|positions|, j requires 0 <= j < |positions| => texts[positions[j]])
  }

  function Flat(calls: seq<seq<string>>): seq<string> {
    if calls == [] then [] else Flat(calls[..|calls| - 1]) + calls[|calls| - 1]
  }

  function Max(a: int, b: int): int {
    if a >= b then a else b
  }

  function Min(a: int, b: int): int {
    if a <= b then a else b
  }

  class CachedEmbedder {
    var cache: map<string, Vector>

    constructor ()
      ensures cache == map[]
    {
      cache := map[];
    }

    /** The first loop: what the cache knows, and the positions it does not. */
    method LookUp(texts: seq<string>) returns (results: seq<Option<Vector>>, missing: seq<nat>)
      ensures missing == Missing(texts, cache, |texts|)
      ensures |results| == |texts|
      ensures forall i | 0 <= i < |texts| :: results[i] == if texts[i] in cache then Some(cache[texts[i]]) else None
    {
      results, missing := [], [];
      for i := 0 to |texts|
        invariant missing == Missing(texts, cache, i)
        invariant |results| == i
        invariant forall j | 0 <= j < i :: results[j] == if texts[j] in cache then Some(cache[texts[j]]) else None
      {
        if texts[i] in cache {
          results := results + [Some(cache[texts[i]])];
        } else {
          results := results + [None];
          missing := missing + [i];
        }
      }
    }

    /** `zip(batch, vectors, strict=True)`: keep one vector for each position, up to the first one lacking. */
    method Keep(texts: seq<string>, batch: seq<nat>, vectors: seq<Vector>, before: seq<Option<Vector>>, ghost fit: Fit)
        returns (results: seq<Option<Vector>>)
      requires |before| == |texts| && PositionsOf(batch, texts)
      modifies this`cache
      ensures |results| == |texts|
      ensures forall i | 0 <= i < |texts| && i !in batch :: results[i] == before[i]
      ensures |vectors| == |batch| ==> forall i | i in batch :: results[i].Some?
      ensures |vectors| == |batch| ==> cache.Keys == old(cache.Keys) + set t | t in TextsAt(texts, batch)
      ensures AllFit(fit, TextsAt(texts, batch), vectors) ==>
                forall i | i in batch :: results[i].Some? && fit(texts[i], results[i].value)
      ensures AllFit(fit, TextsAt(texts, batch), vectors) && CacheFits(fit, old(cache)) ==> CacheFits(fit, cache)
    {
      results := before;
      var j := 0;
      while j < |batch| && j < |vectors|
        invariant j <= |batch| && j <= |vectors|
        invariant Kept(fit, texts, batch, vectors, j, before, results, old(cache), cache)
      {
        KeptNext(fit, texts, batch, vectors, j, before, results, old(cache), cache);
        cache := cache[texts[batch[j]] := vectors[j]];
        results := results[batch[j] := Some(vectors[j])];
        j := j + 1;
      }
      KeptAll(fit, texts, batch, vectors, j, before, results, old(cache), cache);
    }

    /** One batch: the remote answer, or the fallback's when the request fails. */
    method AskFor(texts: seq<string>, batch: seq<nat>, call: nat, remote: Remote, fallback: Fallback,
                  before: seq<Option<Vector>>, ghost fit: Fit)
        returns (results: seq<Option<Vector>>, complete: bool)
      requires |before| == |texts| && PositionsOf(batch, texts)
      modifies this`cache
      ensures |results| == |texts|
      ensures forall i | 0 <= i < |texts| && i !in batch :: results[i] == before[i]
      ensures complete ==> forall i | i in batch :: results[i].Some?
      ensures complete ==> cache.Keys == old(cache.Keys) + set t | t in TextsAt(texts, batch)
      ensures Conforms(fit, remote, fallback) && CacheFits(fit, old(cache)) && ResultsFit(fit, texts, before) ==>
                complete && CacheFits(fit, cache) && ResultsFit(fit, texts, results)
    {
      var asked := TextsAt(texts, batch);
      var answer := remote(call, asked);
      var vectors := if answer.Some? then answer.value else fallback(asked);
      results := Keep(texts, batch, vectors, before, fit);
      complete := |vectors| == |batch|;
      assert Conforms(fit, remote, fallback) ==> AllFit(fit, asked, vectors);
    }

    /** The batch loop over the positions that were not cached. */
    method AskAll(texts: seq<string>, missing: seq<nat>, size: nat, remote: Remote, fallback: Fallback,
                  found: seq<Option<Vector>>, ghost fit: Fit)
        returns (results: seq<Option<Vector>>, complete: bool, ghost calls: seq<seq<string>>)
      requires size > 0 && PositionsOf(missing, texts)
      requires forall x, y | 0 <= x < y < |missing| :: missing[x] < missing[y]
      requires forall i | i in missing :: texts[i] !in cache
      requires Answered(texts, cache, [], found, cache)
      modifies this`cache
      ensures complete ==>
                Answered(texts, old(cache), missing, results, cache) && Flat(calls) == TextsAt(texts, missing)
      ensures Conforms(fit, remote, fallback) && CacheFits(fit, old(cache)) && ResultsFit(fit, texts, found) ==>
                complete && CacheFits(fit, cache) && ResultsFit(fit, texts, results)
      ensures forall b | b in calls :: 0 < |b| <= size
    {
      results, complete, calls := found, true, [];
      var start, call := 0, 0;
      assert missing[..0] == [];
      while start < |missing|
        invariant 0 <= start <= |missing|
        invariant Answered(texts, old(cache), missing[..start], results, cache)
        invariant Flat(calls) == TextsAt(texts, missing[..start])
        invariant Conforms(fit, remote, fallback) && CacheFits(fit, old(cache)) && ResultsFit(fit, texts, found) ==>
                    CacheFits(fit, cache) && ResultsFit(fit, texts, results)
        invariant forall b | b in calls :: 0 < |b| <= size
        decreases |missing| - start
      {
        var end := Min(start + size, |missing|);
        var batch := missing[start..end];
        SplitMissing(texts, missing, start, end);
        ghost var before, cached := results, cache;
        results, complete := AskFor(texts, batch, call, remote, fallback, results, fit);
        calls, call := calls + [TextsAt(texts, batch)], call + 1;
        if !complete {
          return;
        }
        AnsweredMore(texts, old(cache), missing[..start], batch, before, cached, results, cache);
        start := end;
      }
      assert missing[..start] == missing;
    }

    /** One vector for every text, in order, whatever is cached, repeated, batched or failing. `fit` is any
        relation the embedders keep to; `calls` are the batches asked for. */
    method Embed(texts: seq<string>, batchSize: int, remote: Remote, fallback: Fallback, ghost fit: Fit)
        returns (r: Result<seq<Vector>>, ghost calls: seq<seq<string>>)
      modifies this`cache
      ensures r.Ok? ==> |r.value| == |texts|
      ensures r.Ok? ==> forall i | 0 <= i < |texts| && texts[i] in old(cache) :: r.value[i] == old(cache)[texts[i]]
      ensures r.Ok? ==> cache.Keys == old(cache.Keys) + set t | t in texts
      ensures Conforms(fit, remote, fallback) && CacheFits(fit, old(cache)) ==>
                r.Ok? && AllFit(fit, texts, r.value) && CacheFits(fit, cache)
      ensures forall b | b in calls :: 0 < |b| <= Max(1, batchSize)
      ensures PositionsOf(Missing(texts, old(cache), |texts|), texts)
      ensures r.Ok? ==> Flat(calls) == TextsAt(texts, Missing(texts, old(cache), |texts|))
    {
      var found, missing := LookUp(texts);
      MissingExactly(texts, cache, |texts|);
      var results, complete;
      results, complete, calls := AskAll(texts, missing, Max(1, batchSize), remote, fallback, found, fit);
      if !complete {
        return Err(Invalid), calls;
      }
      AllAnswered(texts, old(cache), results, cache, fit);
      r := Ok(Filled(results));
    }

    /** `Embed` over embedders that compute `f` text by text, from a cache of its vectors: the plain map,
        whatever the batches, the repetitions and what was cached, and the cache stays one of `f`. */
    method EmbedMapped(texts: seq<string>, batchSize: int, remote: Remote, fallback: Fallback,
                       ghost f: string -> Vector)
        returns (r: Result<seq<Vector>>)
      requires Pointwise(f, remote, fallback) && CacheFits((t, v) => v == f(t), cache)
      modifies this`cache
      ensures r == Ok(Mapped(f, texts))
      ensures CacheFits((t, v) => v == f(t), cache) && cache.Keys == old(cache.Keys) + set t | t in texts
    {
      ghost var calls;
      FittingIsMapping(f, remote, fallback, texts, []);
      r, calls := Embed(texts, batchSize, remote, fallback, (t, v) => v == f(t));
      FittingIsMapping(f, remote, fallback, texts, r.value);
    }

    /** `Embed` over batches that may fail: every position gets its own text's vector, of the remote map `f` or
        of the fallback's `g`, or the one it was cached with. */
    method EmbedEither(texts: seq<string>, batchSize: int, remote: Remote, fallback: Fallback,
                       ghost f: string -> Vector, ghost g: string -> Vector)
        returns (r: Result<seq<Vector>>)
      requires forall n, batch | remote(n, batch).Some? :: remote(n, batch).value == Mapped(f, batch)
      requires forall batch :: fallback(batch) == Mapped(g, batch)
      modifies this`cache
      ensures r.Ok? && |r.value| == |texts|
      ensures forall i | 0 <= i < |texts| ::
                if texts[i] in old(cache) then r.value[i] == old(cache)[texts[i]]
                else r.value[i] == f(texts[i]) || r.value[i] == g(texts[i])
      ensures cache.Keys == old(cache.Keys) + set t | t in texts
      ensures forall t | t in cache ::
                cache[t] == f(t) || cache[t] == g(t) || (t in old(cache) && cache[t] == old(cache)[t])
    {
      ghost var known, calls := cache, [];
      ghost var fit := (t: string, v: Vector) => v == f(t) || v == g(t) || (t in known && v == known[t]);
      r, calls := Embed(texts, batchSize, remote, fallback, fit);
    }
  }

  /** The first `j` vectors of a batch are kept, under their own positions and texts. */
  ghost predicate Kept(fit: Fit, texts: seq<string>, batch: seq<nat>, vectors: seq<Vector>, j: nat,
                       before: seq<Option<Vector>>, results: seq<Option<Vector>>,
                       known: map<string, Vector>, cache: map<string, Vector>)
    requires j <= |batch| && PositionsOf(batch, texts)
  {
    && |before| == |texts| && |results| == |texts|
    && (forall i | 0 <= i < |texts| && i !in batch :: results[i] == before[i])
    && (forall i | i in batch[..j] :: i < |texts| && results[i].Some?)
    && cache.Keys == known.Keys + (set t | t in TextsAt(texts, batch)[..j])
    && (AllFit(fit, TextsAt(texts, batch), vectors) ==>
          && (forall i | i in batch[..j] :: fit(texts[i], results[i].value))
          && (CacheFits(fit, known) ==> CacheFits(fit, cache)))
  }

  lemma KeptNext(fit: Fit, texts: seq<string>, batch: seq<nat>, vectors: seq<Vector>, j: nat,
                 before: seq<Option<Vector>>, results: seq<Option<Vector>>,
                 known: map<string, Vector>, cache: map<string, Vector>)
    requires j < |batch| && j < |vectors| && PositionsOf(batch, texts)
    requires Kept(fit, texts, batch, vectors, j, before, results, known, cache)
    ensures Kept(fit, texts, batch, vectors, j + 1, before, results[batch[j] := Some(vectors[j])], known,
                 cache[texts[batch[j]] := vectors[j]])
  {
    var asked := TextsAt(texts, batch);
    assert batch[j] in batch && asked[j] == texts[batch[j]];
    assert batch[..j + 1] == batch[..j] + [batch[j]];
    assert asked[..j + 1] == asked[..j] + [asked[j]];
  }

  lemma KeptAll(fit: Fit, texts: seq<string>, batch: seq<nat>, vectors: seq<Vector>, j: nat,
                before: seq<Option<Vector>>, results: seq<Option<Vector>>,
                known: map<string, Vector>, cache: map<string, Vector>)
    requires j <= |batch| && PositionsOf(batch, texts)
    requires Kept(fit, texts, batch, vectors, j, before, results, known, cache)
    ensures j == |batch| ==> forall i | i in batch :: results[i].Some?
    ensures j == |batch| ==> cache.Keys == known.Keys + set t | t in TextsAt(texts, batch)
    ensures AllFit(fit, TextsAt(texts, batch), vectors) && CacheFits(fit, known) ==> CacheFits(fit, cache)
    ensures j == |batch| && AllFit(fit, TextsAt(texts, batch), vectors) ==>
              forall i | i in batch :: results[i].Some? && fit(texts[i], results[i].value)
  {
    if j == |batch| {
      assert batch[..j] == batch && TextsAt(texts, batch)[..j] == TextsAt(texts, batch);
    }
  }

  predicate ResultsFit(fit: Fit, texts: seq<string>, results: seq<Option<Vector>>) {
    |results| == |texts| && forall i | 0 <= i < |texts| && results[i].Some? :: fit(texts[i], results[i].value)
  }

  /** Cached texts have the vector they had, and the positions asked for so far have one, and their texts are cached. */
  ghost predicate Answered(texts: seq<string>, known: map<string, Vector>, asked: seq<nat>,
                           results: seq<Option<Vector>>, cache: map<string, Vector>)
  {
    && |results| == |texts|
    && (forall i | 0 <= i < |texts| && texts[i] in known :: results[i] == Some(known[texts[i]]))
    && PositionsOf(asked, texts)
    && (forall i | i in asked :: results[i].Some?)
    && cache.Keys == known.Keys + set t | t in TextsAt(texts, asked)
  }

  /** `[vector or [] for vector in results]`. */
  function Filled(results: seq<Option<Vector>>): seq<Vector> {
    seq(|results|, i requires 0 <= i < |results| => if results[i].Some? then results[i].value else [])
  }

  /** Once every missing position is answered there is nothing left to fill in. */
  lemma AllAnswered(texts: seq<string>, known: map<string, Vector>, results: seq<Option<Vector>>,
                    cache: map<string, Vector>, fit: Fit)
    requires Answered(texts, known, Missing(texts, known, |texts|), results, cache)
    ensures cache.Keys == known.Keys + set t | t in texts
    ensures |Filled(results)| == |texts|
    ensures forall i | 0 <= i < |texts| && texts[i] in known :: Filled(results)[i] == known[texts[i]]
    ensures ResultsFit(fit, texts, results) ==> AllFit(fit, texts, Filled(results))
  {
    MissingTexts(texts, known);
    MissingExactly(texts, known, |texts|);
    assert forall i | 0 <= i < |texts| :: texts[i] in known || i in Missing(texts, known, |texts|);
  }

  lemma AnsweredMore(texts: seq<string>, known: map<string, Vector>, asked: seq<nat>, batch: seq<nat>,
                     before: seq<Option<Vector>>, cached: map<string, Vector>, results: seq<Option<Vector>>,
                     cache: map<string, Vector>)
    requires Answered(texts, known, asked, before, cached)
    requires PositionsOf(batch, texts) && forall i | i in batch :: texts[i] !in known && i !in asked
    requires |results| == |texts| && forall i | 0 <= i < |texts| && i !in batch :: results[i] == before[i]
    requires forall i | i in batch :: results[i].Some?
    requires cache.Keys == cached.Keys + set t | t in TextsAt(texts, batch)
    ensures Answered(texts, known, asked + batch, results, cache)
  {
    assert TextsAt(texts, asked + batch) == TextsAt(texts, asked) + TextsAt(texts, batch);
  }

  /** The texts in the cache and those asked for are all texts. */
  lemma MissingTexts(texts: seq<string>, cache: map<string, Vector>)
    ensures PositionsOf(Missing(texts, cache, |texts|), texts)
    ensures cache.Keys + (set t | t in TextsAt(texts, Missing(texts, cache, |texts|))) ==
              cache.Keys + set t | t in texts
  {
    var missing := Missing(texts, cache, |texts|);
    MissingExactly(texts, cache, |texts|);
    forall i | 0 <= i < |texts| && texts[i] !in cache ensures texts[i] in TextsAt(texts, missing) {
      assert i in missing;
      var j :| 0 <= j < |missing| && missing[j] == i;
      assert TextsAt(texts, missing)[j] == texts[i];
    }
    forall t | t in TextsAt(texts, missing) ensures t in texts {
      var j :| 0 <= j < |missing| && TextsAt(texts, missing)[j] == t;
      assert missing[j] in missing;
    }
  }

  /** The next batch continues what was asked for, and overlaps none of it. */
  lemma SplitMissing(texts: seq<string>, missing: seq<nat>, start: nat, end: nat)
    requires start <= end <= |missing| && PositionsOf(missing, texts)
    requires forall x, y | 0 <= x < y < |missing| :: missing[x] < missing[y]
    ensures missing[..end] == missing[..start] + missing[start..end]
    ensures PositionsOf(missing[..start], texts) && PositionsOf(missing[start..end], texts)
        && PositionsOf(missing[..end], texts)
    ensures forall i | i in missing[start..end] :: i in missing && i !in missing[..start]
    ensures TextsAt(texts, missing[..end]) == TextsAt(texts, missing[..start]) + TextsAt(texts, missing[start..end])
  {
  }

  // ------------------------------------------------------------ the plain map

  function Mapped(f: string -> Vector, texts: seq<string>): seq<Vector> {
    seq(|texts|, i requires 0 <= i < |texts| => f(texts[i]))
  }

  /** Both embedders compute `f` text by text. */
  ghost predicate Pointwise(f: string -> Vector, remote: Remote, fallback: Fallback) {
    && (forall n, batch | remote(n, batch).Some? :: remote(n, batch).value == Mapped(f, batch))
    && (forall batch :: fallback(batch) == Mapped(f, batch))
  }

  /** Fitting a pointwise embedder means being its plain map. */
  lemma FittingIsMapping(f: string -> Vector, remote: Remote, fallback: Fallback, texts: seq<string>,
                         vectors: seq<Vector>)
    requires Pointwise(f, remote, fallback)
    ensures Conforms((t, v) => v == f(t), remote, fallback)
    ensures AllFit((t, v) => v == f(t), texts, vectors) <==> vectors == Mapped(f, texts)
  {
  }
}
