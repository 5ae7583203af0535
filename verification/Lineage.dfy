/**
 Which observed spans may be related: the memoised ancestry check
 of an assessment and the loop that relates a span to its parent.
*/
module Lineage {
  import opened Model

  datatype Key = Key(source: string, trace: string, span: Option<string>)

  datatype Span = Span(source: string, trace: string, span: string, parent: Option<string>,
                       observedAt: Instant, error: bool, evidenceId: string)

  datatype Relationship = Relationship(parentEvidence: string, childEvidence: string, bothFailed: bool)

  type Spans = map<Key, seq<Span>>

  function KeyOf(s: Span): Key {
    Key(s.source, s.trace, Some(s.span))
  }

  function ParentKey(s: Span): Key {
    Key(s.source, s.trace, s.parent)
  }

  /** Exactly one span was collected under the key. */
  predicate Single(spans: Spans, k: Key) {
    k in spans && |spans[k]| == 1
  }

  function Only(spans: Spans, k: Key): Span
    requires Single(spans, k)
  {
    spans[k][0]
  }

  predicate WellKeyed(spans: Spans) {
    forall k | k in spans :: spans[k] != [] && forall s | s in spans[k] :: KeyOf(s) == k
  }

  // ------------------------------------------------------------ the meaning

  /** Following parents from `k` leaves the collected spans within `n` steps, over single spans only. */
  predicate Leaves(spans: Spans, k: Key, n: nat)
    decreases n
  {
    k !in spans || (n > 0 && Single(spans, k) && Leaves(spans, ParentKey(Only(spans, k)), n - 1))
  }

  /** The parent chain from `k` meets only unambiguous spans and leaves the collected spans without repeating. */
  ghost predicate Valid(spans: Spans, k: Key) {
    exists n: nat :: Leaves(spans, k, n)
  }

  lemma ValidStep(spans: Spans, k: Key)
    requires Single(spans, k)
    ensures Valid(spans, k) <==> Valid(spans, ParentKey(Only(spans, k)))
  {
    var up := ParentKey(Only(spans, k));
    if Valid(spans, k) {
      var n: nat :| Leaves(spans, k, n);
      assert Leaves(spans, up, n - 1);
    }
    if Valid(spans, up) {
      var n: nat :| Leaves(spans, up, n);
      assert Leaves(spans, k, n + 1);
    }
  }

  /** Single spans whose parents are all among them lead nowhere. */
  lemma {:induction false} ClosedNeverLeaves(spans: Spans, within: set<Key>, k: Key, n: nat)
    requires forall q | q in within :: Single(spans, q) && ParentKey(Only(spans, q)) in within
    requires k in within
    ensures !Leaves(spans, k, n)
    decreases n
  {
    if n > 0 {
      ClosedNeverLeaves(spans, within, ParentKey(Only(spans, k)), n - 1);
    }
  }

  /** Single spans, each the child of the next, the last one the child of `key`. */
  predicate Climbs(spans: Spans, path: seq<Key>, key: Key) {
    && (forall i | 0 <= i < |path| :: Single(spans, path[i]))
    && (forall i | 0 <= i < |path| - 1 :: ParentKey(Only(spans, path[i])) == path[i + 1])
    && (path != [] ==> ParentKey(Only(spans, path[|path| - 1])) == key)
  }

  // -------------------------------------------------------- the memoised check

  /** The spans of one assessment and what is known about their ancestry. */
  class Ancestry {
    const spans: Spans
    var cache: map<Key, bool>

    /** Whatever is cached is right. */
    ghost predicate Consistent()
      reads this
    {
      forall k | k in cache :: cache[k] <==> Valid(spans, k)
    }

    constructor (spans: Spans)
      ensures this.spans == spans && Consistent()
    {
      this.spans, cache := spans, map[];
    }

    /** `valid_lineage`: exact whatever was asked before, and the cache stays right. */
    method ValidLineage(start: Key) returns (valid: bool)
      requires Consistent()
      modifies this`cache
      ensures valid <==> Valid(spans, start)
      ensures Consistent()
      ensures old(cache.Keys) <= cache.Keys
    {
      var key, path, seen := start, [], {};
      while key in spans && key !in cache
        invariant forall q :: q in seen <==> q in path
        invariant Climbs(spans, path, key)
        invariant Consistent() && cache == old(cache)
        invariant forall q | q in path :: Valid(spans, q) <==> Valid(spans, key)
        invariant Valid(spans, start) <==> Valid(spans, key)
        invariant seen <= spans.Keys
        decreases spans.Keys - seen
      {
        if key in seen || |spans[key]| != 1 {
          if key in seen {
            RepeatIsInvalid(spans, path, key);
          }
          Note(path, false);
          return false;
        }
        ValidStep(spans, key);
        seen := seen + {key};
        path := path + [key];
        key := ParentKey(spans[key][0]);
      }
      valid := if key in cache then cache[key] else true;
      assert key !in spans ==> Leaves(spans, key, 0);
      Note(path, valid);
    }

    /** `for item in path: lineage_cache[item] = valid`. */
    method Note(path: seq<Key>, valid: bool)
      requires Consistent() && forall q | q in path :: valid <==> Valid(spans, q)
      modifies this`cache
      ensures Consistent()
      ensures cache.Keys == old(cache.Keys) + set q | q in path
    {
      for i := 0 to |path|
        invariant Consistent()
        invariant cache.Keys == old(cache.Keys) + set q | q in path[..i]
      {
        assert path[..i + 1] == path[..i] + [path[i]];
        cache := cache[path[i] := valid];
      }
      assert path[..|path|] == path;
    }
  }

  /** A chain that comes back to one of its spans never leaves. */
  lemma RepeatIsInvalid(spans: Spans, path: seq<Key>, key: Key)
    requires Climbs(spans, path, key) && key in path
    ensures !Valid(spans, key)
  {
    var within := set q | q in path;
    forall q | q in within ensures Single(spans, q) && ParentKey(Only(spans, q)) in within {
      var i :| 0 <= i < |path| && path[i] == q;
      assert i < |path| - 1 ==> path[i + 1] in path;
    }
    forall n: nat ensures !Leaves(spans, key, n) {
      ClosedNeverLeaves(spans, within, key, n);
    }
  }

  // ------------------------------------------------------------ relationships

  /** The pair is related: the child's lineage is valid, its parent was collected once, and not after it. */
  ghost predicate Related(spans: Spans, parent: Key, child: Key) {
    && Valid(spans, child) && Single(spans, child) && Single(spans, parent)
    && ParentKey(Only(spans, child)) == parent
    && Only(spans, parent).observedAt <= Only(spans, child).observedAt
  }

  /** The check for a span that is its own parent never fires once the lineage is valid. */
  lemma SelfParentNeverFires(spans: Spans, child: Key, parent: Key)
    requires WellKeyed(spans) && Valid(spans, child) && Single(spans, child) && Single(spans, parent)
    requires ParentKey(Only(spans, child)) == parent
    ensures Only(spans, parent).span != Only(spans, child).span
  {
    assert Only(spans, parent) in spans[parent] && Only(spans, child) in spans[child];
    if parent == child {
      forall n: nat ensures !Leaves(spans, child, n) {
        ClosedNeverLeaves(spans, {child}, child, n);
      }
    }
  }

  /** How many parents lie between the span and the edge of what was collected. */
  function Steps(spans: Spans, k: Key, n: nat): nat
    requires Leaves(spans, k, n)
    decreases n
  {
    if k !in spans then 0 else 1 + Steps(spans, ParentKey(Only(spans, k)), n - 1)
  }

  lemma {:induction false} StepsSame(spans: Spans, k: Key, n: nat, m: nat)
    requires Leaves(spans, k, n) && Leaves(spans, k, m)
    ensures Steps(spans, k, n) == Steps(spans, k, m)
    decreases n
  {
    if k in spans {
      StepsSame(spans, ParentKey(Only(spans, k)), n - 1, m - 1);
    }
  }

  ghost function Depth(spans: Spans, k: Key): nat
    requires Valid(spans, k)
  {
    var n: nat :| Leaves(spans, k, n);
    Steps(spans, k, n)
  }

  lemma RelatedIsDeeper(spans: Spans, parent: Key, child: Key)
    requires Related(spans, parent, child)
    ensures Valid(spans, parent) && Depth(spans, child) == Depth(spans, parent) + 1
  {
    ValidStep(spans, child);
    var n: nat :| Leaves(spans, child, n) && Depth(spans, child) == Steps(spans, child, n);
    var m: nat :| Leaves(spans, parent, m) && Depth(spans, parent) == Steps(spans, parent, m);
    assert Steps(spans, child, n) == 1 + Steps(spans, parent, n - 1);
    StepsSame(spans, parent, n - 1, m);
  }

  /** From one span to the next by relationships only. */
  ghost predicate Descends(spans: Spans, path: seq<Key>) {
    forall i | 0 < i < |path| :: Related(spans, path[i - 1], path[i])
  }

  /** The relationships form a forest in time: one parent per
      child at most, no way back, and never backwards in time. */
  lemma RelationshipsFormForest(spans: Spans, path: seq<Key>, other: Key)
    requires |path| >= 2 && Descends(spans, path)
    ensures path[0] != path[|path| - 1]
    ensures Single(spans, path[0]) && Single(spans, path[|path| - 1])
    ensures Only(spans, path[0]).observedAt <= Only(spans, path[|path| - 1]).observedAt
    ensures Related(spans, other, path[|path| - 1]) ==> other == path[|path| - 2]
  {
    assert Related(spans, path[|path| - 2], path[|path| - 1]);
    DepthGrows(spans, path);
  }

  lemma {:induction false} DepthGrows(spans: Spans, path: seq<Key>)
    requires |path| >= 2 && Descends(spans, path)
    ensures Valid(spans, path[0]) && Valid(spans, path[|path| - 1])
    ensures Depth(spans, path[0]) < Depth(spans, path[|path| - 1])
    ensures Single(spans, path[0]) && Single(spans, path[|path| - 1])
    ensures Only(spans, path[0]).observedAt <= Only(spans, path[|path| - 1]).observedAt
  {
    var last := |path| - 1;
    assert Related(spans, path[last - 1], path[last]);
    RelatedIsDeeper(spans, path[last - 1], path[last]);
    if |path| > 2 {
      DepthGrows(spans, path[..last]);
    }
  }

  // -------------------------------------------------------------- the loops

  /** The keys of the spans in the order they were first met. */
  function KeysOf(records: seq<Span>): seq<Key> {
    if records == [] then []
    else
      var before, k := KeysOf(records[..|records| - 1]), KeyOf(records[|records| - 1]);
      if k in before then before else before + [k]
  }

  /** The spans recorded under a key, in order. */
  function Under(records: seq<Span>, k: Key): seq<Span> {
    if records == [] then []
    else
      var before, last := Under(records[..|records| - 1], k), records[|records| - 1];
      if KeyOf(last) == k then before + [last] else before
  }

  function Grouped(records: seq<Span>): Spans {
    map k | k in KeysOf(records) :: Under(records, k)
  }

  lemma {:induction false} GroupedIsWellKeyed(records: seq<Span>)
    ensures forall k :: k in KeysOf(records) <==> Under(records, k) != []
    ensures forall k, s :: s in Under(records, k) <==> s in records && KeyOf(s) == k
    ensures forall i, j | 0 <= i < j < |KeysOf(records)| :: KeysOf(records)[i] != KeysOf(records)[j]
    ensures WellKeyed(Grouped(records))
    ensures forall k | k in KeysOf(records) :: k in Grouped(records)
  {
    if records != [] {
      GroupedIsWellKeyed(records[..|records| - 1]);
      assert forall s :: s in records <==> s in records[..|records| - 1] || s == records[|records| - 1];
    }
  }

  /** The key is the related child of its own parent. */
  ghost predicate IsRelated(spans: Spans, k: Key) {
    Single(spans, k) && Related(spans, ParentKey(Only(spans, k)), k)
  }

  /** What the loop emits for one key. */
  ghost function Emitted(spans: Spans, k: Key): seq<Relationship> {
    if IsRelated(spans, k) then
      var child := Only(spans, k);
      var parent := Only(spans, ParentKey(child));
      [Relationship(parent.evidenceId, child.evidenceId, parent.error && child.error)]
    else []
  }

  ghost function EmittedFor(spans: Spans, keys: seq<Key>): seq<Relationship> {
    if keys == [] then [] else EmittedFor(spans, keys[..|keys| - 1]) + Emitted(spans, keys[|keys| - 1])
  }

  /** The relationship names this pair: the parent's evidence, then the child's, failed if both spans did. */
  ghost predicate Names(spans: Spans, r: Relationship, parent: Key, child: Key) {
    && Related(spans, parent, child)
    && r.parentEvidence == Only(spans, parent).evidenceId && r.childEvidence == Only(spans, child).evidenceId
    && (r.bothFailed <==> Only(spans, parent).error && Only(spans, child).error)
  }

  /** What is emitted is exactly one relationship for each related child, naming it and its parent, and nothing else. */
  lemma EmittedExactly(spans: Spans, keys: seq<Key>, r: Relationship)
    requires forall i, j | 0 <= i < j < |keys| :: keys[i] != keys[j]
    ensures r in EmittedFor(spans, keys) <==> exists parent, child :: child in keys && Names(spans, r, parent, child)
    ensures |EmittedFor(spans, keys)| == |set k | k in keys && IsRelated(spans, k)|
  {
    EmittedMembers(spans, keys, r);
    EmittedCount(spans, keys);
    if exists child :: child in keys && r in Emitted(spans, child) {
      var child :| child in keys && r in Emitted(spans, child);
      EmittedNames(spans, child, r);
    }
    if exists parent, child :: child in keys && Names(spans, r, parent, child) {
      var parent, child :| child in keys && Names(spans, r, parent, child);
      EmittedNames(spans, child, r);
    }
  }

  lemma {:induction false} EmittedMembers(spans: Spans, keys: seq<Key>, r: Relationship)
    ensures r in EmittedFor(spans, keys) <==> exists child :: child in keys && r in Emitted(spans, child)
  {
    if keys != [] {
      EmittedMembers(spans, keys[..|keys| - 1], r);
    }
  }

  lemma {:induction false} EmittedCount(spans: Spans, keys: seq<Key>)
    requires forall i, j | 0 <= i < j < |keys| :: keys[i] != keys[j]
    ensures |EmittedFor(spans, keys)| == |set k | k in keys && IsRelated(spans, k)|
  {
    if keys == [] {
      assert (set k | k in keys && IsRelated(spans, k)) == {};
    } else {
      var before, last := keys[..|keys| - 1], keys[|keys| - 1];
      EmittedCount(spans, before);
      OneMoreChild(spans, before, last);
      assert keys == before + [last];
    }
  }

  lemma EmittedNames(spans: Spans, child: Key, r: Relationship)
    ensures r in Emitted(spans, child) <==> exists parent :: Names(spans, r, parent, child)
  {
    if IsRelated(spans, child) && r in Emitted(spans, child) {
      assert Names(spans, r, ParentKey(Only(spans, child)), child);
    }
  }

  lemma OneMoreChild(spans: Spans, before: seq<Key>, last: Key)
    requires last !in before
    ensures |set k | k in before + [last] && IsRelated(spans, k)| ==
              |set k | k in before && IsRelated(spans, k)| + if IsRelated(spans, last) then 1 else 0
  {
    var related := set k | k in before && IsRelated(spans, k);
    assert (set k | k in before + [last] && IsRelated(spans, k)) ==
             related + if IsRelated(spans, last) then {last} else {};
  }

  lemma EmittedNext(spans: Spans, keys: seq<Key>, i: nat)
    requires i < |keys|
    ensures EmittedFor(spans, keys[..i + 1]) == EmittedFor(spans, keys[..i]) + Emitted(spans, keys[i])
  {
    assert keys[..i + 1][..i] == keys[..i];
  }

  lemma GroupOneMore(records: seq<Span>, i: nat)
    requires i < |records|
    ensures var before, k := Grouped(records[..i]), KeyOf(records[i]);
            && Grouped(records[..i + 1]) == before[k := (if k in before then before[k] else []) + [records[i]]]
            && (k in before <==> k in KeysOf(records[..i]))
            && KeysOf(records[..i + 1]) == KeysOf(records[..i]) + if k in before then [] else [k]
  {
    assert records[..i + 1][..i] == records[..i];
    GroupedIsWellKeyed(records[..i]);
  }

  /** `spans.setdefault(key, []).append(record)` over the trace records. */
  method Group(records: seq<Span>) returns (spans: Spans, keys: seq<Key>)
    ensures spans == Grouped(records) && keys == KeysOf(records)
  {
    spans, keys := map[], [];
    for i := 0 to |records|
      invariant spans == Grouped(records[..i]) && keys == KeysOf(records[..i])
    {
      var k := KeyOf(records[i]);
      GroupOneMore(records, i);
      if k !in spans {
        keys := keys + [k];
        spans := spans[k := []];
      }
      spans := spans[k := spans[k] + [records[i]]];
    }
    assert records[..|records|] == records;
  }

  /** The body of the relationship loop for one key: its relationship, or none. */
  method Relate(ancestry: Ancestry, k: Key) returns (related: seq<Relationship>)
    requires ancestry.Consistent() && WellKeyed(ancestry.spans) && k in ancestry.spans
    modifies ancestry`cache
    ensures ancestry.Consistent()
    ensures related == Emitted(ancestry.spans, k)
  {
    var spans := ancestry.spans;
    var valid := ancestry.ValidLineage(k);
    if !valid || |spans[k]| != 1 {
      return [];
    }
    var child := spans[k][0];
    var up := ParentKey(child);
    var parents := if up in spans then spans[up] else [];
    if |parents| != 1 {
      return [];
    }
    SelfParentNeverFires(spans, k, up);
    if parents[0].span == child.span || child.observedAt < parents[0].observedAt {
      return [];
    }
    related := [Relationship(parents[0].evidenceId, child.evidenceId, parents[0].error && child.error)];
  }

  /** The relationship loop of `assess`. */
  method Relationships(records: seq<Span>) returns (relationships: seq<Relationship>)
    ensures relationships == EmittedFor(Grouped(records), KeysOf(records))
  {
    var spans, keys := Group(records);
    GroupedIsWellKeyed(records);
    var ancestry := new Ancestry(spans);
    relationships := [];
    for i := 0 to |keys|
      invariant ancestry.Consistent()
      invariant relationships == EmittedFor(spans, keys[..i])
    {
      EmittedNext(spans, keys, i);
      var related := Relate(ancestry, keys[i]);
      relationships := relationships + related;
    }
    assert keys[..|keys|] == keys;
  }
}
