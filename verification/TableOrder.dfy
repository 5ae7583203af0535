/**
 The order in which the retention script empties its tables: a
 table goes once no other table still to be emptied refers to it.
*/
module TableOrder {
  import opened Model

  datatype ForeignKey = ForeignKey(table: string, referenced: string)

  /** Rows of `a` refer to rows of the other table `b`; references of a table to itself are ignored. */
  predicate Refers(keys: seq<ForeignKey>, a: string, b: string) {
    a != b && ForeignKey(a, b) in keys
  }

  predicate Blocked(keys: seq<ForeignKey>, pending: set<string>, t: string) {
    exists a | a in pending :: Refers(keys, a, t)
  }

  // ----------------------------------------------------------------- sorting

  predicate Less(a: string, b: string) {
    b != [] && (a == [] || a[0] < b[0] || (a[0] == b[0] && Less(a[1..], b[1..])))
  }

  lemma {:induction false} LessTotal(a: string, b: string)
    ensures a == b || Less(a, b) || Less(b, a)
  {
    if a != [] && b != [] && a[0] == b[0] {
      LessTotal(a[1..], b[1..]);
      assert a == [a[0]] + a[1..] && b == [b[0]] + b[1..];
    }
  }

  lemma {:induction false} LessTransitive(a: string, b: string, c: string)
    requires Less(a, b) && Less(b, c)
    ensures Less(a, c)
  {
    if a != [] && a[0] == b[0] && b[0] == c[0] {
      LessTransitive(a[1..], b[1..], c[1..]);
    }
  }

  predicate Sorted(s: seq<string>) {
    forall i, j | 0 <= i < j < |s| :: Less(s[i], s[j])
  }

  method Insert(s: seq<string>, t: string) returns (r: seq<string>)
    requires Sorted(s) && t !in s
    ensures Sorted(r)
    ensures forall x :: x in r <==> x == t || x in s
  {
    var i := 0;
    while i < |s| && Less(s[i], t)
      invariant i <= |s|
      invariant forall j | 0 <= j < i :: Less(s[j], t)
    {
      i := i + 1;
    }
    r := s[..i] + [t] + s[i..];
    if i < |s| {
      LessTotal(s[i], t);
      forall j | i < j < |s| ensures Less(t, s[j]) {
        LessTransitive(t, s[i], s[j]);
      }
    }
    assert forall x :: x in s <==> x in s[..i] || x in s[i..];
  }

  method SortedList(tables: set<string>) returns (r: seq<string>)
    ensures Sorted(r)
    ensures forall x :: x in r <==> x in tables
  {
    r := [];
    var rest := tables;
    while rest != {}
      invariant rest <= tables && Sorted(r)
      invariant forall x :: x in r <==> x in tables && x !in rest
      decreases rest
    {
      var t :| t in rest;
      r := Insert(r, t);
      rest := rest - {t};
    }
  }

  lemma {:induction false} LessIrreflexive(a: string)
    ensures !Less(a, a)
  {
    if a != [] {
      LessIrreflexive(a[1..]);
    }
  }

  // ------------------------------------------------------------------- order

  /** Each table once, and every table before the tables it refers to. */
  ghost predicate Ordered(order: seq<string>, tables: set<string>, keys: seq<ForeignKey>) {
    && (forall t :: t in order <==> t in tables)
    && (forall i, j | 0 <= i < j < |order| :: order[i] != order[j])
    && (forall i, j | 0 <= i < |order| && 0 <= j < |order| && Refers(keys, order[i], order[j]) :: i < j)
  }

  /** Two or more tables, each referring to the next and the last to the first. */
  ghost predicate Cycle(c: seq<string>, tables: set<string>, keys: seq<ForeignKey>) {
    && |c| >= 2
    && (forall t | t in c :: t in tables)
    && (forall i, j | 0 <= i < j < |c| :: c[i] != c[j])
    && (forall i | 0 <= i < |c| - 1 :: Refers(keys, c[i], c[i + 1]))
    && Refers(keys, c[|c| - 1], c[0])
  }

  lemma {:induction false} CyclePositions(order: seq<string>, tables: set<string>, keys: seq<ForeignKey>,
                                          c: seq<string>, i: nat, p: nat)
    requires Ordered(order, tables, keys) && Cycle(c, tables, keys) && i < |c|
    requires p < |order| && order[p] == c[i]
    ensures exists q :: 0 <= q <= p && order[q] == c[0]
    decreases i
  {
    if i > 0 {
      assert c[i - 1] in c && c[i - 1] in order;
      var q :| 0 <= q < |order| && order[q] == c[i - 1];
      assert Refers(keys, c[i - 1], c[i]);
      CyclePositions(order, tables, keys, c, i - 1, q);
    }
  }

  /** Tables that refer to each other in a circle cannot be ordered. */
  lemma OrderedHasNoCycle(order: seq<string>, tables: set<string>, keys: seq<ForeignKey>, c: seq<string>)
    requires Ordered(order, tables, keys)
    ensures !Cycle(c, tables, keys)
  {
    if Cycle(c, tables, keys) {
      var last := |c| - 1;
      assert c[last] in c && c[last] in order;
      var p :| 0 <= p < |order| && order[p] == c[last];
      CyclePositions(order, tables, keys, c, last, p);
    }
  }

  /** Walking back along references that block, from blocked table to blocked table, closes a circle. */
  lemma {:induction false} WalkBack(pending: set<string>, keys: seq<ForeignKey>,
                                    path: seq<string>) returns (c: seq<string>)
    requires path != [] && forall t | t in path :: t in pending
    requires forall t {:trigger Blocked(keys, pending, t)} | t in pending :: Blocked(keys, pending, t)
    requires forall i, j | 0 <= i < j < |path| :: path[i] != path[j]
    requires forall i | 0 <= i < |path| - 1 :: Refers(keys, path[i], path[i + 1])
    ensures Cycle(c, pending, keys)
    decreases pending - set t | t in path
  {
    assert path[0] in path && Blocked(keys, pending, path[0]);
    var a :| a in pending && Refers(keys, a, path[0]);
    if a in path {
      var i :| 0 <= i < |path| && path[i] == a;
      c := path[..i + 1];
      assert c[|c| - 1] == a;
    } else {
      assert a in pending - set t | t in path;
      c := WalkBack(pending, keys, [a] + path);
    }
  }

  lemma CycleGrows(c: seq<string>, small: set<string>, tables: set<string>, keys: seq<ForeignKey>)
    requires Cycle(c, small, keys) && small <= tables
    ensures Cycle(c, tables, keys)
  {
  }

  /** What was ordered so far, before what is pending. */
  ghost predicate OrderedSoFar(order: seq<string>, pending: set<string>, tables: set<string>, keys: seq<ForeignKey>) {
    && pending <= tables
    && Ordered(order, tables - pending, keys)
    && (forall i, t | 0 <= i < |order| && t in pending :: !Refers(keys, t, order[i]))
  }

  /** A round of tables that nothing pending refers to may follow in any order. */
  lemma RoundKeepsOrder(order: seq<string>, ready: seq<string>, pending: set<string>, tables: set<string>,
                        keys: seq<ForeignKey>)
    requires OrderedSoFar(order, pending, tables, keys)
    requires forall t | t in ready :: t in pending && !Blocked(keys, pending, t)
    requires forall i, j | 0 <= i < j < |ready| :: ready[i] != ready[j]
    ensures OrderedSoFar(order + ready, pending - (set t | t in ready), tables, keys)
  {
    var longer := order + ready;
    var left := pending - set t | t in ready;
    forall i, j | 0 <= i < j < |longer| ensures longer[i] != longer[j] {
      if i < |order| && |order| <= j {
        assert longer[i] in order && longer[j] in ready;
      }
    }
    forall j | |order| <= j < |longer|
      ensures longer[j] in pending && forall a | a in pending :: !Refers(keys, a, longer[j])
    {
      assert longer[j] in ready && !Blocked(keys, pending, longer[j]);
    }
    forall i, t | 0 <= i < |longer| && t in left ensures !Refers(keys, t, longer[i]) {
      if |order| <= i {
        assert longer[i] in ready && !Blocked(keys, pending, longer[i]);
      }
    }
    assert forall t :: t in longer <==> t in order || t in ready;
  }

  /** The ordering loop: an order that respects every reference,
      or an error exactly if there is a circle of two or more. */
  method DeleteOrder(tables: set<string>, keys: seq<ForeignKey>) returns (r: Result<seq<string>>)
    ensures r.Ok? ==> Ordered(r.value, tables, keys)
    ensures r.Err? <==> exists c :: Cycle(c, tables, keys)
  {
    var order := [];
    var pending := tables;
    while pending != {}
      invariant OrderedSoFar(order, pending, tables, keys)
      decreases pending
    {
      var free := set t | t in pending && !Blocked(keys, pending, t);
      var ready := SortedList(free);
      if ready == [] {
        var t :| t in pending;
        assert t !in ready;
        assert forall u | u in pending :: u !in free;
        ghost var c := WalkBack(pending, keys, [t]);
        CycleGrows(c, pending, tables, keys);
        return Err(Unavailable);
      }
      forall i, j | 0 <= i < j < |ready| ensures ready[i] != ready[j] {
        LessIrreflexive(ready[i]);
      }
      RoundKeepsOrder(order, ready, pending, tables, keys);
      assert ready[0] in ready;
      order := order + ready;
      pending := pending - set t | t in ready;
    }
    assert tables - {} == tables;
    forall c ensures !Cycle(c, tables, keys) {
      OrderedHasNoCycle(order, tables, keys, c);
    }
    r := Ok(order);
  }
}
