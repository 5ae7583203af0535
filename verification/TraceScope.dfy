/**
 Which spans of a fetched trace belong to an investigation: those of
 the service itself, and those of its allowed dependencies that descend
 from them. The decoder grows the set in at most a hundred rounds.
*/
module TraceScope {
  import opened Model

  datatype Reference = Reference(kind: string, traceId: string, spanId: Option<string>)

  /** A span as received; what a malformed span lacks is `None`. */
  datatype RawSpan = RawSpan(spanId: Option<string>, service: Option<string>, references: seq<Reference>)

  datatype Trace = Trace(traceId: string, spans: seq<RawSpan>)

  datatype Scope = Scope(service: string, allowed: set<string>)

  const ROUNDS := 100

  // ------------------------------------------------------------- the meaning

  predicate OfService(s: RawSpan, scope: Scope) {
    s.service == Some(scope.service)
  }

  predicate OfDependency(s: RawSpan, scope: Scope) {
    s.service.Some? && s.service.value in scope.allowed
  }

  predicate ChildOf(t: Trace, s: RawSpan, id: Option<string>) {
    exists r | r in s.references :: r.kind == "CHILD_OF" && r.traceId == t.traceId && r.spanId == id
  }

  /** A span of the service, then dependencies, each a child of the one before. */
  predicate Descent(t: Trace, scope: Scope, path: seq<RawSpan>) {
    && path != []
    && (forall s | s in path :: s in t.spans)
    && OfService(path[0], scope)
    && (forall i | 0 < i < |path| :: OfDependency(path[i], scope) && ChildOf(t, path[i], path[i - 1].spanId))
  }

  /** The id is that of a span at most `hops` child references away from a span of the service. */
  ghost predicate InReach(t: Trace, scope: Scope, id: Option<string>, hops: nat) {
    exists path: seq<RawSpan> :: Descent(t, scope, path) && |path| <= hops + 1 && path[|path| - 1].spanId == id
  }

  // -------------------------------------------------------------- the rounds

  function Roots(t: Trace, scope: Scope): set<Option<string>> {
    set s | s in t.spans && OfService(s, scope) :: s.spanId
  }

  /** The ids one round adds. */
  function Added(t: Trace, scope: Scope, known: set<Option<string>>): set<Option<string>> {
    set s | s in t.spans && OfDependency(s, scope) && HasParentIn(t, s, known) :: s.spanId
  }

  predicate HasParentIn(t: Trace, s: RawSpan, known: set<Option<string>>) {
    exists r | r in s.references :: r.kind == "CHILD_OF" && r.traceId == t.traceId && r.spanId in known
  }

  function Within(t: Trace, scope: Scope, hops: nat): set<Option<string>> {
    if hops == 0 then Roots(t, scope) else Within(t, scope, hops - 1) + Added(t, scope, Within(t, scope, hops - 1))
  }

  predicate Closed(t: Trace, scope: Scope, known: set<Option<string>>) {
    Roots(t, scope) <= known && Added(t, scope, known) <= known
  }

  /** Growing in rounds finds exactly the ids within so many hops. */
  lemma {:induction false} WithinIsReach(t: Trace, scope: Scope, id: Option<string>, hops: nat)
    ensures id in Within(t, scope, hops) <==> InReach(t, scope, id, hops)
  {
    if id in Within(t, scope, hops) {
      WithinHasDescent(t, scope, id, hops);
    }
    if InReach(t, scope, id, hops) {
      var path: seq<RawSpan> :| Descent(t, scope, path) && |path| <= hops + 1 && path[|path| - 1].spanId == id;
      DescentIsWithin(t, scope, path, hops);
    }
  }

  lemma {:induction false} WithinHasDescent(t: Trace, scope: Scope, id: Option<string>, hops: nat)
    requires id in Within(t, scope, hops)
    ensures InReach(t, scope, id, hops)
    decreases hops
  {
    if id in Roots(t, scope) {
      var s :| s in t.spans && OfService(s, scope) && s.spanId == id;
      assert Descent(t, scope, [s]);
      assert [s][|[s]| - 1].spanId == id;
    } else if hops > 0 && id in Within(t, scope, hops - 1) {
      WithinHasDescent(t, scope, id, hops - 1);
      var path: seq<RawSpan> :| Descent(t, scope, path) && |path| <= hops && path[|path| - 1].spanId == id;
    } else if hops > 0 {
      var known := Within(t, scope, hops - 1);
      var s :| s in t.spans && OfDependency(s, scope) && HasParentIn(t, s, known) && s.spanId == id;
      var r :| r in s.references && r.kind == "CHILD_OF" && r.traceId == t.traceId && r.spanId in known;
      WithinHasDescent(t, scope, r.spanId, hops - 1);
      OneHopMore(t, scope, s, r, hops - 1);
    }
  }

  lemma OneHopMore(t: Trace, scope: Scope, s: RawSpan, r: Reference, hops: nat)
    requires s in t.spans && OfDependency(s, scope)
    requires r in s.references && r.kind == "CHILD_OF" && r.traceId == t.traceId && InReach(t, scope, r.spanId, hops)
    ensures InReach(t, scope, s.spanId, hops + 1)
  {
    var path: seq<RawSpan> :| Descent(t, scope, path) && |path| <= hops + 1 && path[|path| - 1].spanId == r.spanId;
    var longer := path + [s];
    assert ChildOf(t, s, r.spanId);
    assert Descent(t, scope, longer);
    assert longer[|longer| - 1].spanId == s.spanId;
  }

  lemma {:induction false} DescentIsWithin(t: Trace, scope: Scope, path: seq<RawSpan>, hops: nat)
    requires Descent(t, scope, path) && |path| <= hops + 1
    ensures path[|path| - 1].spanId in Within(t, scope, hops)
  {
    var last := path[|path| - 1];
    if |path| == 1 {
      RootsWithin(t, scope, hops);
    } else {
      var before := path[..|path| - 1];
      DescentIsWithin(t, scope, before, hops - 1);
      assert last in path && ChildOf(t, last, path[|path| - 2].spanId);
      assert HasParentIn(t, last, Within(t, scope, hops - 1));
    }
  }

  lemma {:induction false} RootsWithin(t: Trace, scope: Scope, hops: nat)
    ensures Roots(t, scope) <= Within(t, scope, hops)
  {
    if hops > 0 {
      RootsWithin(t, scope, hops - 1);
    }
  }

  // ----------------------------------------------------------- the fixpoint

  lemma {:induction false} SettledStays(t: Trace, scope: Scope, hops: nat, more: nat)
    requires Added(t, scope, Within(t, scope, hops)) <= Within(t, scope, hops)
    ensures Within(t, scope, hops + more) == Within(t, scope, hops)
  {
    if more > 0 {
      SettledStays(t, scope, hops, more - 1);
    }
  }

  /** Any closed set contains every round. */
  lemma {:induction false} WithinIsLeast(t: Trace, scope: Scope, hops: nat, known: set<Option<string>>)
    requires Closed(t, scope, known)
    ensures Within(t, scope, hops) <= known
  {
    if hops > 0 {
      WithinIsLeast(t, scope, hops - 1, known);
      assert Added(t, scope, Within(t, scope, hops - 1)) <= Added(t, scope, known);
    }
  }

  function Ids(spans: seq<RawSpan>): set<Option<string>> {
    set s | s in spans :: s.spanId
  }

  lemma {:induction false} IdsAtMost(spans: seq<RawSpan>)
    ensures |Ids(spans)| <= |spans|
  {
    if spans != [] {
      IdsAtMost(spans[1..]);
      assert Ids(spans) == Ids(spans[1..]) + {spans[0].spanId};
    }
  }

  predicate Grows(t: Trace, scope: Scope, hops: nat) {
    exists id :: id in Added(t, scope, Within(t, scope, hops)) && id !in Within(t, scope, hops)
  }

  lemma OneRound(t: Trace, scope: Scope, hops: nat)
    requires Grows(t, scope, hops)
    ensures |Within(t, scope, hops)| < |Within(t, scope, hops + 1)|
    ensures hops > 0 ==> Grows(t, scope, hops - 1)
  {
    var id :| id in Added(t, scope, Within(t, scope, hops)) && id !in Within(t, scope, hops);
    SmallerSet(Within(t, scope, hops), Within(t, scope, hops + 1), id);
  }

  /** A round that adds something follows rounds that all did. */
  lemma {:induction false} RoundsGrow(t: Trace, scope: Scope, hops: nat)
    requires Grows(t, scope, hops)
    ensures hops + 1 <= |Within(t, scope, hops + 1)|
  {
    OneRound(t, scope, hops);
    if hops > 0 {
      RoundsGrow(t, scope, hops - 1);
    }
  }

  lemma {:induction false} SmallerSet<T>(a: set<T>, b: set<T>, x: T)
    requires a <= b && x in b && x !in a
    ensures |a| < |b|
  {
    if a != {} {
      var y :| y in a;
      SmallerSet(a - {y}, b - {y}, x);
    }
  }

  lemma {:induction false} AtMost<T>(a: set<T>, b: set<T>)
    requires a <= b
    ensures |a| <= |b|
  {
    if x :| x in b && x !in a {
      SmallerSet(a, b, x);
    } else {
      assert a == b;
    }
  }

  lemma {:induction false} WithinIds(t: Trace, scope: Scope, hops: nat)
    ensures Within(t, scope, hops) <= Ids(t.spans)
  {
    if hops > 0 {
      WithinIds(t, scope, hops - 1);
    }
  }

  lemma NoMoreGrowth(t: Trace, scope: Scope)
    ensures !Grows(t, scope, |t.spans|)
  {
    var n := |t.spans|;
    if Grows(t, scope, n) {
      RoundsGrow(t, scope, n);
      WithinIds(t, scope, n + 1);
      AtMost(Within(t, scope, n + 1), Ids(t.spans));
      IdsAtMost(t.spans);
    }
  }

  /** As many rounds as there are spans reach everything that can be reached. */
  lemma EnoughRounds(t: Trace, scope: Scope)
    ensures Closed(t, scope, Within(t, scope, |t.spans|))
  {
    var n := |t.spans|;
    RootsWithin(t, scope, n);
    if !(Added(t, scope, Within(t, scope, n)) <= Within(t, scope, n)) {
      assert Grows(t, scope, n);
      NoMoreGrowth(t, scope);
    }
  }

  function Min(a: nat, b: nat): nat {
    if a <= b then a else b
  }

  /** The loop of `decode`: it stops early only when nothing is left to add. */
  method Reachable(t: Trace, scope: Scope) returns (reachable: set<Option<string>>)
    ensures reachable == Within(t, scope, Min(|t.spans|, ROUNDS))
    ensures forall id :: id in reachable <==> InReach(t, scope, id, Min(|t.spans|, ROUNDS))
    ensures |t.spans| <= ROUNDS ==>
              Closed(t, scope, reachable) && forall known | Closed(t, scope, known) :: reachable <= known
  {
    reachable := Roots(t, scope);
    for round := 0 to Min(|t.spans|, ROUNDS)
      invariant reachable == Within(t, scope, round)
    {
      var added := Added(t, scope, reachable);
      if added <= reachable {
        SettledStays(t, scope, round, Min(|t.spans|, ROUNDS) - round);
        break;
      }
      reachable := reachable + added;
    }
    ScopeIsExact(t, scope);
  }

  lemma ScopeIsExact(t: Trace, scope: Scope)
    ensures var reachable := Within(t, scope, Min(|t.spans|, ROUNDS));
            && (forall id :: id in reachable <==> InReach(t, scope, id, Min(|t.spans|, ROUNDS)))
            && (|t.spans| <= ROUNDS ==>
                  Closed(t, scope, reachable) && forall known | Closed(t, scope, known) :: reachable <= known)
  {
    var rounds := Min(|t.spans|, ROUNDS);
    forall id ensures id in Within(t, scope, rounds) <==> InReach(t, scope, id, rounds) {
      WithinIsReach(t, scope, id, rounds);
    }
    EnoughRounds(t, scope);
    forall known | Closed(t, scope, known) ensures Within(t, scope, rounds) <= known {
      WithinIsLeast(t, scope, rounds, known);
    }
  }

  /** For any trace the scope is the whole closure exactly if nothing lies beyond the hundredth hop. */
  lemma CompleteIff(t: Trace, scope: Scope)
    ensures Closed(t, scope, Within(t, scope, Min(|t.spans|, ROUNDS))) <==>
              forall id, hops: nat | InReach(t, scope, id, hops) :: InReach(t, scope, id, ROUNDS)
  {
    var rounds := Min(|t.spans|, ROUNDS);
    if Closed(t, scope, Within(t, scope, rounds)) {
      forall id, hops: nat | InReach(t, scope, id, hops) ensures InReach(t, scope, id, ROUNDS) {
        WithinIsReach(t, scope, id, hops);
        WithinIsLeast(t, scope, hops, Within(t, scope, rounds));
        SettledStays(t, scope, rounds, ROUNDS - rounds);
        WithinIsReach(t, scope, id, ROUNDS);
      }
    } else if forall id, hops: nat | InReach(t, scope, id, hops) :: InReach(t, scope, id, ROUNDS) {
      EnoughRounds(t, scope);
      RootsWithin(t, scope, ROUNDS);
      forall id | id in Added(t, scope, Within(t, scope, ROUNDS)) ensures id in Within(t, scope, ROUNDS) {
        assert id in Within(t, scope, ROUNDS + 1);
        WithinIsReach(t, scope, id, ROUNDS + 1);
        WithinIsReach(t, scope, id, ROUNDS);
      }
    }
  }

  // --------------------------------------------------------- a long trace

  /** The service's span calls a dependency, which calls another, and so
      on: every later span is the child of the one before, and of no other. */
  predicate IsChain(t: Trace, scope: Scope) {
    && t.spans != [] && OfService(t.spans[0], scope)
    && (forall i, j | 0 <= i < j < |t.spans| :: t.spans[i].spanId != t.spans[j].spanId)
    && (forall i {:trigger Follows(t, scope, i)} | 0 < i < |t.spans| :: Follows(t, scope, i))
  }

  /** The dependency's span is the child of the one before, and of no other. */
  predicate Follows(t: Trace, scope: Scope, i: int)
    requires 0 < i < |t.spans|
  {
    && OfDependency(t.spans[i], scope) && !OfService(t.spans[i], scope)
    && t.spans[i].references == [Reference("CHILD_OF", t.traceId, t.spans[i - 1].spanId)]
  }

  lemma ChainRoots(t: Trace, scope: Scope, i: nat)
    requires IsChain(t, scope) && i < |t.spans|
    ensures t.spans[i].spanId in Roots(t, scope) <==> i == 0
  {
    if s :| s in t.spans && OfService(s, scope) && s.spanId == t.spans[i].spanId {
      var j :| 0 <= j < |t.spans| && t.spans[j] == s;
      assert j > 0 ==> Follows(t, scope, j);
    }
  }

  lemma ChainAdded(t: Trace, scope: Scope, known: set<Option<string>>, i: nat)
    requires IsChain(t, scope) && 0 < i < |t.spans|
    ensures t.spans[i].spanId in Added(t, scope, known) <==> t.spans[i - 1].spanId in known
  {
    assert Follows(t, scope, i);
    if s :| s in t.spans && OfDependency(s, scope) && HasParentIn(t, s, known) && s.spanId == t.spans[i].spanId {
      var j :| 0 <= j < |t.spans| && t.spans[j] == s;
    }
    if t.spans[i - 1].spanId in known {
      assert t.spans[i].references[0] in t.spans[i].references;
      assert HasParentIn(t, t.spans[i], known);
    }
  }

  /** The ids known are those of the chain up to so many hops. */
  predicate KnownUpTo(t: Trace, known: set<Option<string>>, hops: nat) {
    forall i | 0 <= i < |t.spans| :: t.spans[i].spanId in known <==> i <= hops
  }

  /** One more round finds one more span. */
  lemma ChainNext(t: Trace, scope: Scope, known: set<Option<string>>, hops: nat)
    requires IsChain(t, scope) && KnownUpTo(t, known, hops)
    ensures KnownUpTo(t, known + Added(t, scope, known), hops + 1)
  {
    forall i | 0 < i < |t.spans| ensures t.spans[i].spanId in Added(t, scope, known) <==> i - 1 <= hops {
      ChainAdded(t, scope, known, i);
    }
  }

  /** After so many rounds the scope is that much of the chain. */
  lemma {:induction false} ChainWithin(t: Trace, scope: Scope, hops: nat) returns (known: set<Option<string>>)
    requires IsChain(t, scope)
    ensures known == Within(t, scope, hops) && KnownUpTo(t, known, hops)
  {
    if hops == 0 {
      known := Roots(t, scope);
      forall i | 0 <= i < |t.spans| ensures t.spans[i].spanId in known <==> i == 0 {
        ChainRoots(t, scope, i);
      }
    } else {
      var before := ChainWithin(t, scope, hops - 1);
      ChainNext(t, scope, before, hops - 1);
      known := before + Added(t, scope, before);
    }
  }

  /** Any chain is cut after its hundredth hop: the scope holds exactly
      the spans up to there, while all descend from the service. */
  lemma LongChainIsCut(t: Trace, scope: Scope, i: nat)
    requires IsChain(t, scope) && i < |t.spans|
    ensures InReach(t, scope, t.spans[i].spanId, i)
    ensures t.spans[i].spanId in Within(t, scope, Min(|t.spans|, ROUNDS)) <==> i <= ROUNDS
  {
    var known := ChainWithin(t, scope, Min(|t.spans|, ROUNDS));
    var reached := ChainWithin(t, scope, i);
    WithinIsReach(t, scope, t.spans[i].spanId, i);
  }

  // ------------------------------------------------- a chain that decodes

  function Digit(d: nat): char
    requires d < 16
  {
    "0123456789abcdef"[d]
  }

  function DigitValue(c: char): Option<nat> {
    if '0' <= c <= '9' then Some((c - '0') as nat)
    else if 'a' <= c <= 'f' then Some(10 + (c - 'a') as nat)
    else if 'A' <= c <= 'F' then Some(10 + (c - 'A') as nat)
    else None
  }

  /** `int(s, 16)` of a string of hexadecimal digits. */
  function HexValue(s: string): Option<nat> {
    if s == "" then Some(0)
    else
      var before, last := HexValue(s[..|s| - 1]), DigitValue(s[|s| - 1]);
      if before.Some? && last.Some? then Some(16 * before.value + last.value) else None
  }

  /** What `identity` lets pass. */
  predicate ValidIdentity(s: string, lengths: set<nat>) {
    |s| in lengths && HexValue(s).Some? && HexValue(s) != Some(0)
  }

  predicate ValidSpanId(id: Option<string>) {
    id.Some? && ValidIdentity(id.value, {16})
  }

  /** The ids of the trace, of every span and of every parent pass `identity`, and no span is its own parent. */
  predicate Decodable(t: Trace) {
    && ValidIdentity(t.traceId, {16, 32})
    && forall s | s in t.spans ::
         && ValidSpanId(s.spanId)
         && forall r | r in s.references && r.kind == "CHILD_OF" ::
              r.traceId == t.traceId && ValidSpanId(r.spanId) && r.spanId != s.spanId
  }

  function Hex(n: nat, width: nat): string {
    if width == 0 then "" else Hex(n / 16, width - 1) + [Digit(n % 16)]
  }

  function Power16(width: nat): nat {
    if width == 0 then 1 else 16 * Power16(width - 1)
  }

  lemma DigitReadsBack(d: nat)
    requires d < 16
    ensures DigitValue(Digit(d)) == Some(d)
  {
  }

  lemma {:induction false} HexReadsBack(n: nat, width: nat)
    requires n < Power16(width)
    ensures |Hex(n, width)| == width && HexValue(Hex(n, width)) == Some(n)
  {
    if width > 0 {
      HexReadsBack(n / 16, width - 1);
      DigitReadsBack(n % 16);
      assert Hex(n, width)[..width - 1] == Hex(n / 16, width - 1);
    }
  }

  lemma {:induction false} PowerGrows(narrow: nat, wide: nat)
    requires narrow <= wide
    ensures Power16(narrow) <= Power16(wide)
  {
    if narrow < wide {
      PowerGrows(narrow, wide - 1);
    }
  }

  function Link(traceId: string, width: nat, i: nat): RawSpan {
    RawSpan(Some(Hex(i + 1, width)), Some(if i == 0 then "service" else "dependency"),
            if i == 0 then [] else [Reference("CHILD_OF", traceId, Some(Hex(i, width)))])
  }

  function Chain(traceId: string, width: nat, n: nat): Trace {
    Trace.Trace(traceId, seq(n, i requires 0 <= i => Link(traceId, width, i)))
  }

  const CHAIN_SCOPE := Scope("service", {"dependency"})

  lemma LinkIds(traceId: string, width: nat, n: nat, i: nat)
    requires i < n < Power16(width)
    ensures var t := Chain(traceId, width, n);
            var s := t.spans[i];
            && |t.spans| == n && s.spanId.Some? && |s.spanId.value| == width
            && HexValue(s.spanId.value) == Some(i + 1)
            && s.references == if i == 0 then [] else [Reference("CHILD_OF", traceId, t.spans[i - 1].spanId)]
  {
    HexReadsBack(i + 1, width);
  }

  /** Numbered spans make a chain of any length that their ids can number. */
  lemma ChainIsOne(traceId: string, width: nat, n: nat)
    requires 0 < n < Power16(width)
    ensures IsChain(Chain(traceId, width, n), CHAIN_SCOPE)
  {
    var t := Chain(traceId, width, n);
    forall i | 0 <= i < n ensures t.spans[i].spanId.Some? && HexValue(t.spans[i].spanId.value) == Some(i + 1) {
      LinkIds(traceId, width, n, i);
    }
    forall i | 0 < i < n ensures Follows(t, CHAIN_SCOPE, i) {
      LinkIds(traceId, width, n, i);
    }
  }

  lemma LinkDecodes(traceId: string, width: nat, n: nat, i: nat)
    requires width == 16 && i < n < Power16(width)
    ensures var t := Chain(traceId, width, n);
            var s := t.spans[i];
            && |t.spans| == n && ValidSpanId(s.spanId)
            && forall r | r in s.references :: r.traceId == traceId && ValidSpanId(r.spanId) && r.spanId != s.spanId
  {
    LinkIds(traceId, width, n, i);
    if i > 0 {
      LinkIds(traceId, width, n, i - 1);
    }
  }

  lemma ChainDecodes(traceId: string, width: nat, n: nat)
    requires ValidIdentity(traceId, {16, 32}) && width == 16 && 0 < n < Power16(width)
    ensures Decodable(Chain(traceId, width, n))
  {
    var t := Chain(traceId, width, n);
    forall s | s in t.spans
      ensures ValidSpanId(s.spanId)
      ensures forall r | r in s.references ::
                r.traceId == traceId && ValidSpanId(r.spanId) && r.spanId != s.spanId
    {
      var i :| 0 <= i < n && t.spans[i] == s;
      LinkDecodes(traceId, width, n, i);
    }
  }

  lemma TraceIdsExist(width: nat)
    requires width == 32
    ensures ValidIdentity(Hex(1, width), {16, 32})
  {
    PowerGrows(1, width);
    assert Power16(1) == 16 * Power16(0);
    HexReadsBack(1, width);
  }

  /** The decoder accepts traces that it cuts, under any trace id and of any length up to the collector's limit:
      the last span descends from the service, all identities are valid, and the scope leaves it out. */
  lemma DecodedChainIsCut(traceId: string, n: nat)
    requires ValidIdentity(traceId, {16, 32}) && ROUNDS + 1 < n <= 2000
    ensures exists t: Trace, last: Option<string> | t.traceId == traceId && |t.spans| == n ::
              && Decodable(t) && InReach(t, CHAIN_SCOPE, last, n - 1)
              && last in Ids(t.spans) && last !in Within(t, CHAIN_SCOPE, Min(|t.spans|, ROUNDS))
  {
    var width := 16;
    assert Power16(3) == 16 * Power16(2) == 16 * 16 * Power16(1);
    PowerGrows(3, width);
    var t := Chain(traceId, width, n);
    ChainIsOne(traceId, width, n);
    ChainDecodes(traceId, width, n);
    LongChainIsCut(t, CHAIN_SCOPE, n - 1);
    assert t.spans[n - 1].spanId in Ids(t.spans);
  }
}
