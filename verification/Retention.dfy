/**
 The maintenance script that retains the newest incidents: which context snapshots it keeps for them,
 and in which order it empties the tables.
*/
module Retention {
  import opened Model

  // --------------------------------------------------------------- spellings

  /** `UUID(value).hex`, when the value is one, and the dashed spelling of a hex one. */
  datatype Spelling = Spelling(hex: string -> Option<string>, dashed: string -> string)

  /** Both canonical spellings read back as the same identifier. */
  ghost predicate Canonical(sp: Spelling) {
    forall v | sp.hex(v).Some? ::
      sp.hex(sp.hex(v).value) == sp.hex(v) && sp.hex(sp.dashed(sp.hex(v).value)) == sp.hex(v)
  }

  function Norm(sp: Spelling, v: string): string {
    if sp.hex(v).Some? then sp.hex(v).value else v
  }

  /** The spellings under which `variants` looks for one value. */
  predicate Spells(sp: Spelling, v: string, w: string) {
    w == v || (sp.hex(v).Some? && (w == sp.hex(v).value || w == sp.dashed(sp.hex(v).value)))
  }

  predicate SpelledIn(sp: Spelling, values: set<string>, w: string) {
    exists v | v in values :: Spells(sp, v, w)
  }

  predicate NormIn(sp: Spelling, values: set<string>, w: string) {
    exists v | v in values :: Norm(sp, v) == Norm(sp, w)
  }

  // --------------------------------------------------------------- snapshots

  /** A row of `context_snapshots`; the empty parent stands for none. */
  datatype Snapshot = Snapshot(id: string, parent: string)

  /** The parents the query for `values` returns. */
  function ParentsOf(sp: Spelling, rows: seq<Snapshot>, values: set<string>): set<string> {
    set r | r in rows && SpelledIn(sp, values, r.id) && r.parent != "" :: r.parent
  }

  function NewParents(sp: Spelling, rows: seq<Snapshot>, kept: set<string>, frontier: set<string>): set<string> {
    set p | p in ParentsOf(sp, rows, frontier) && !NormIn(sp, kept, p)
  }

  function AllParents(rows: seq<Snapshot>): set<string> {
    set r | r in rows :: r.parent
  }

  /** The closure from a frontier on. */
  function Closure(sp: Spelling, rows: seq<Snapshot>, kept: set<string>, frontier: set<string>): set<string>
    decreases AllParents(rows) - kept
  {
    var added := NewParents(sp, rows, kept, frontier);
    if added == {} then kept
    else
      NewIsNew(sp, rows, kept, frontier);
      Closure(sp, rows, kept + added, added)
  }

  lemma NewIsNew(sp: Spelling, rows: seq<Snapshot>, kept: set<string>, frontier: set<string>)
    ensures NewParents(sp, rows, kept, frontier) <= AllParents(rows) - kept
    ensures NewParents(sp, rows, kept, frontier) != {} ==>
              AllParents(rows) - (kept + NewParents(sp, rows, kept, frontier)) < AllParents(rows) - kept
  {
    var added := NewParents(sp, rows, kept, frontier);
    assert forall p | p in added :: p !in kept;
    if added != {} {
      var p :| p in added;
      assert p in AllParents(rows) - kept;
    }
  }

  /** The loop that protects the snapshots retained incidents stand on. */
  method ProtectedSnapshots(sp: Spelling, rows: seq<Snapshot>, seeds: set<string>) returns (kept: set<string>)
    ensures kept == Closure(sp, rows, seeds, seeds)
  {
    kept := seeds;
    var frontier := seeds;
    while frontier != {}
      invariant Closure(sp, rows, kept, frontier) == Closure(sp, rows, seeds, seeds)
      decreases AllParents(rows) - kept, frontier
    {
      var added := NewParents(sp, rows, kept, frontier);
      if added == {} {
        break;
      }
      NewIsNew(sp, rows, kept, frontier);
      kept := kept + added;
      frontier := added;
    }
    assert NewParents(sp, rows, kept, {}) == {};
  }

  /** Every parent found for a value of the set is in it, under some spelling. */
  ghost predicate ParentClosed(sp: Spelling, rows: seq<Snapshot>, kept: set<string>) {
    forall p | p in ParentsOf(sp, rows, kept) :: NormIn(sp, kept, p)
  }

  lemma {:induction false} ClosureIsClosed(sp: Spelling, rows: seq<Snapshot>, kept: set<string>, frontier: set<string>)
    requires frontier <= kept
    requires forall p | p in ParentsOf(sp, rows, kept - frontier) :: NormIn(sp, kept, p)
    ensures kept <= Closure(sp, rows, kept, frontier)
    ensures ParentClosed(sp, rows, Closure(sp, rows, kept, frontier))
    decreases AllParents(rows) - kept
  {
    var added := NewParents(sp, rows, kept, frontier);
    forall p | p in ParentsOf(sp, rows, kept) ensures p in added || NormIn(sp, kept, p) {
      var r :| r in rows && SpelledIn(sp, kept, r.id) && r.parent != "" && r.parent == p;
      var v :| v in kept && Spells(sp, v, r.id);
      if v in frontier {
        assert SpelledIn(sp, frontier, r.id);
      } else {
        assert SpelledIn(sp, kept - frontier, r.id);
      }
    }
    if added != {} {
      NewIsNew(sp, rows, kept, frontier);
      var more := kept + added;
      forall p | p in ParentsOf(sp, rows, more - added) ensures NormIn(sp, more, p) {
        assert more - added == kept;
        if p in added {
          assert Norm(sp, p) == Norm(sp, p);
        } else {
          var v :| v in kept && Norm(sp, v) == Norm(sp, p);
          assert v in more;
        }
      }
      ClosureIsClosed(sp, rows, more, added);
    }
  }

  /** Nothing is protected without need: any set with the seeds and all parents found for it holds the closure. */
  lemma {:induction false} ClosureIsLeast(sp: Spelling, rows: seq<Snapshot>, kept: set<string>, frontier: set<string>,
                                          closed: set<string>)
    requires frontier <= kept <= closed && ParentsOf(sp, rows, closed) <= closed
    ensures Closure(sp, rows, kept, frontier) <= closed
    decreases AllParents(rows) - kept
  {
    var added := NewParents(sp, rows, kept, frontier);
    if added != {} {
      NewIsNew(sp, rows, kept, frontier);
      forall p | p in added ensures p in ParentsOf(sp, rows, closed) {
        var r :| r in rows && SpelledIn(sp, frontier, r.id) && r.parent != "" && r.parent == p;
        var v :| v in frontier && Spells(sp, v, r.id);
        assert SpelledIn(sp, closed, r.id);
      }
      ClosureIsLeast(sp, rows, kept + added, added, closed);
    }
  }

  /** A row the script may delete: none of the spellings of a protected value. */
  predicate Deletable(sp: Spelling, rows: seq<Snapshot>, seeds: set<string>, row: Snapshot) {
    !SpelledIn(sp, Closure(sp, rows, seeds, seeds), row.id)
  }

  /** No parent of a protected row is deleted. */
  ghost predicate ParentsKept(sp: Spelling, rows: seq<Snapshot>, seeds: set<string>) {
    forall row, parent | row in rows && parent in rows && row.parent == parent.id && parent.id != ""
        && !Deletable(sp, rows, seeds, row) ::
      !Deletable(sp, rows, seeds, parent)
  }

  /** The id of every parent row is spelled canonically, or is no UUID at all. */
  ghost predicate WellSpelled(sp: Spelling, rows: seq<Snapshot>) {
    forall row, parent | row in rows && parent in rows && row.parent == parent.id && parent.id != ""
        && parent.id != row.id ::
      sp.hex(parent.id).Some? ==>
        parent.id == sp.hex(parent.id).value || parent.id == sp.dashed(sp.hex(parent.id).value)
  }

  lemma ParentsKeptOf(sp: Spelling, rows: seq<Snapshot>, seeds: set<string>)
    requires Canonical(sp) && WellSpelled(sp, rows)
    ensures ParentsKept(sp, rows, seeds)
  {
    var kept := Closure(sp, rows, seeds, seeds);
    assert ParentsOf(sp, rows, seeds - seeds) == {};
    ClosureIsClosed(sp, rows, seeds, seeds);
    forall row, parent | row in rows && parent in rows && row.parent == parent.id && parent.id != ""
        && SpelledIn(sp, kept, row.id)
      ensures SpelledIn(sp, kept, parent.id)
    {
      assert parent.id in ParentsOf(sp, rows, kept);
      var v :| v in kept && Norm(sp, v) == Norm(sp, parent.id);
      if parent.id != row.id {
        assert Spells(sp, v, parent.id);
      }
    }
  }

  /** A parent spelled otherwise is lost when its canonical spelling is a seed beside the child. */
  lemma MisspelledParentIsLost(sp: Spelling, rows: seq<Snapshot>, row: Snapshot, parent: Snapshot)
    requires Canonical(sp) && row in rows && parent in rows && row.parent == parent.id && parent.id != ""
        && parent.id != row.id
    requires sp.hex(parent.id).Some? && parent.id != sp.hex(parent.id).value
        && parent.id != sp.dashed(sp.hex(parent.id).value)
    ensures !ParentsKept(sp, rows, {row.id, sp.hex(parent.id).value})
  {
    var seeds := {row.id, sp.hex(parent.id).value};
    NeverAdded(sp, rows, seeds, seeds, parent.id);
    var kept := Closure(sp, rows, seeds, seeds);
    assert ParentsOf(sp, rows, seeds - seeds) == {};
    ClosureIsClosed(sp, rows, seeds, seeds);
    assert row.id in kept && Spells(sp, row.id, row.id);
    forall v | v in kept ensures !Spells(sp, v, parent.id) {
    }
  }

  /** A spelling is not added once its canonical one is kept. */
  lemma {:induction false} NeverAdded(sp: Spelling, rows: seq<Snapshot>, kept: set<string>, frontier: set<string>,
                                      v: string)
    requires Canonical(sp) && sp.hex(v).Some? && sp.hex(v).value in kept && v !in kept
    ensures v !in Closure(sp, rows, kept, frontier)
    decreases AllParents(rows) - kept
  {
    var added := NewParents(sp, rows, kept, frontier);
    assert NormIn(sp, kept, v);
    if added != {} {
      NewIsNew(sp, rows, kept, frontier);
      NeverAdded(sp, rows, kept + added, added, v);
    }
  }

  /** Whatever is retained, no parent of a protected snapshot is
      deleted: exactly for tables whose parent ids are well spelled. */
  lemma ParentsKeptIff(sp: Spelling, rows: seq<Snapshot>)
    requires Canonical(sp)
    ensures (forall seeds :: ParentsKept(sp, rows, seeds)) <==> WellSpelled(sp, rows)
  {
    if WellSpelled(sp, rows) {
      forall seeds ensures ParentsKept(sp, rows, seeds) {
        ParentsKeptOf(sp, rows, seeds);
      }
    } else {
      var row, parent :| row in rows && parent in rows && row.parent == parent.id && parent.id != ""
          && parent.id != row.id
                         && sp.hex(parent.id).Some? && parent.id != sp.hex(parent.id).value
                         && parent.id != sp.dashed(sp.hex(parent.id).value);
      MisspelledParentIsLost(sp, rows, row, parent);
    }
  }
}
