/**
 The connector that starts one pinned container. Unlike the validation target it cannot record and
 act in one transaction: it records the action, counts the start, starts, and only then writes the
 receipt, and it may die between any two of these.
*/
module HostConnector {
  import opened Model
  import opened Executor

  /** A row of the `actions` table in the order of insertion. */
  datatype HostRow = HostRow(key: ActionKey, body: RepairBody, receipt: bool, startCalls: nat)

  /** Where the request that holds the lock is: what it has committed so far. */
  datatype Phase = Idle | Recorded(row: nat) | Counted(row: nat) | Ran(row: nat)

  /** The connector's table and the container; `generation` stands for the digest of the container's run state,
      which every effective start or stop changes. */
  datatype Host = Host(
    service: string,
    action: string,
    running: bool,
    generation: int,
    rows: seq<HostRow>,
    phase: Phase)

  datatype HostStep =
    | Asked(key: ActionKey, body: RepairBody)
    | Inspected
    | Started
    | Finished
    | Died
    | StoppedOutside
    | StartedOutside

  datatype HostReply = Unsupported | Conflicting | Changed | Done(key: ActionKey) | Uncertain

  /** The row of the key, or the length of the table. */
  function IndexOf(rows: seq<HostRow>, key: ActionKey): (i: nat)
    ensures i <= |rows|
    ensures i < |rows| ==> rows[i].key == key
    ensures forall j | 0 <= j < i :: rows[j].key != key
  {
    if rows == [] || rows[0].key == key then 0 else IndexOf(rows[1..], key) + 1
  }

  lemma IndexUnique(rows: seq<HostRow>, key: ActionKey, i: nat)
    requires i <= |rows| && (i < |rows| ==> rows[i].key == key)
    requires forall j | 0 <= j < i :: rows[j].key != key
    ensures IndexOf(rows, key) == i
  {
  }

  function Calls(rows: seq<HostRow>, row: nat): nat {
    if row < |rows| then rows[row].startCalls else 0
  }

  /** One step of the request in progress, or of the world around the connector. */
  function HostNext(h: Host, step: HostStep): Host {
    match step
    case Asked(key, body) =>
      var i := IndexOf(h.rows, key);
      if h.phase != Idle || body.service != h.service || body.action != h.action then h
      else if i < |h.rows| then
        if h.rows[i].body != body || h.rows[i].receipt then h else h.(phase := Recorded(i))
      else if h.running || h.generation != body.expectedRevision then h
      else h.(rows := h.rows + [HostRow(key, body, false, 0)], phase := Recorded(i))
    case Inspected =>
      if !h.phase.Recorded? || h.phase.row >= |h.rows| then h
      else if h.running then h.(phase := Ran(h.phase.row))
      else
        var i := h.phase.row;
        h.(rows := h.rows[i := h.rows[i].(startCalls := h.rows[i].startCalls + 1)], phase := Counted(i))
    case Started =>
      if !h.phase.Counted? then h
      else
        h.(running := true, generation := if h.running then h.generation else h.generation + 1,
           phase := Ran(h.phase.row))
    case Finished =>
      if !h.phase.Ran? || h.phase.row >= |h.rows| then h
      else
        var i := h.phase.row;
        h.(rows := h.rows[i := h.rows[i].(receipt := true)], phase := Idle)
    case Died => h.(phase := Idle)
    case StoppedOutside => if h.running then h.(running := false, generation := h.generation + 1) else h
    case StartedOutside => if h.running then h else h.(running := true, generation := h.generation + 1)
  }

  function HostRun(h: Host, steps: seq<HostStep>): Host
    decreases |steps|
  {
    if steps == [] then h else HostRun(HostNext(h, steps[0]), steps[1..])
  }

  lemma HostRunFirst(h: Host, step: HostStep, rest: seq<HostStep>)
    ensures HostRun(h, [step] + rest) == HostRun(HostNext(h, step), rest)
  {
    assert ([step] + rest)[1..] == rest;
  }

  // ------------------------------------------------------------ the invariant

  /** Each key is recorded once, and the request in progress works on a recorded action without a receipt. */
  ghost predicate HostInv(h: Host) {
    && (forall i, j | 0 <= i < |h.rows| && 0 <= j < |h.rows| && h.rows[i].key == h.rows[j].key :: i == j)
    && (h.phase != Idle ==> h.phase.row < |h.rows| && !h.rows[h.phase.row].receipt)
  }

  /** Rows stay, under their keys and bodies; a receipt stays and freezes its row; what was newly recorded was
      recorded for a generation of the container in between. */
  ghost predicate HostLater(h: Host, h': Host) {
    && HostInv(h')
    && |h.rows| <= |h'.rows| && h.generation <= h'.generation
    && h'.service == h.service && h'.action == h.action
    && (forall i | 0 <= i < |h.rows| ::
          && h'.rows[i].key == h.rows[i].key && h'.rows[i].body == h.rows[i].body
          && h.rows[i].startCalls <= h'.rows[i].startCalls
          && (h.rows[i].receipt ==> h'.rows[i] == h.rows[i]))
    && (forall i | |h.rows| <= i < |h'.rows| :: h.generation <= h'.rows[i].body.expectedRevision <= h'.generation)
  }

  lemma HostNextLater(h: Host, step: HostStep)
    requires HostInv(h)
    ensures HostLater(h, HostNext(h, step))
  {
    if step.Asked? {
      AskedLater(h, step.key, step.body);
    }
  }

  lemma AskedLater(h: Host, key: ActionKey, body: RepairBody)
    requires HostInv(h)
    ensures HostLater(h, HostNext(h, Asked(key, body)))
  {
  }

  /** No receipt is taken back, no start follows a receipt, and no key is recorded twice or under two bodies:
      over any requests, crashes and interference. */
  lemma {:induction false} HostForgetsNothing(h: Host, steps: seq<HostStep>)
    requires HostInv(h)
    ensures HostLater(h, HostRun(h, steps))
    decreases |steps|
  {
    if steps != [] {
      HostNextLater(h, steps[0]);
      HostForgetsNothing(HostNext(h, steps[0]), steps[1..]);
    }
  }

  // ------------------------------------------------------------ effects

  function Bit(b: bool): nat {
    if b then 1 else 0
  }

  /** The step makes the stopped container run, under the key of the request in progress. */
  predicate Starts(h: Host, step: HostStep) {
    step == Started && h.phase.Counted? && !h.running
  }

  function StartsIn(h: Host, steps: seq<HostStep>): nat
    decreases |steps|
  {
    if steps == [] then 0 else Bit(Starts(h, steps[0])) + StartsIn(HostNext(h, steps[0]), steps[1..])
  }

  function StartsOf(h: Host, steps: seq<HostStep>, row: nat): nat
    decreases |steps|
  {
    if steps == [] then 0
    else Bit(Starts(h, steps[0]) && h.phase.row == row) + StartsOf(HostNext(h, steps[0]), steps[1..], row)
  }

  function StopsIn(h: Host, steps: seq<HostStep>): nat
    decreases |steps|
  {
    if steps == [] then 0 else Bit(steps[0] == StoppedOutside && h.running) + StopsIn(HostNext(h, steps[0]), steps[1..])
  }

  function StartsOutside(h: Host, steps: seq<HostStep>): nat
    decreases |steps|
  {
    if steps == [] then 0
    else Bit(steps[0] == StartedOutside && !h.running) + StartsOutside(HostNext(h, steps[0]), steps[1..])
  }

  /** Every start of the container is the connector's or somebody else's, and balances with the stops. */
  lemma {:induction false} StartsBalance(h: Host, steps: seq<HostStep>)
    ensures Bit(h.running) + StartsIn(h, steps) + StartsOutside(h, steps) ==
              StopsIn(h, steps) + Bit(HostRun(h, steps).running)
    decreases |steps|
  {
    if steps != [] {
      StartsBalance(HostNext(h, steps[0]), steps[1..]);
    }
  }

  /** While nobody stops the container, the connector starts it at
      most once for all keys together, and not at all if it runs. */
  lemma OneStartWithoutStops(h: Host, steps: seq<HostStep>)
    requires StopsIn(h, steps) == 0
    ensures StartsIn(h, steps) <= 1 && (h.running ==> StartsIn(h, steps) == 0)
  {
    StartsBalance(h, steps);
  }

  lemma CallsNext(h: Host, step: HostStep, row: nat)
    ensures var h' := HostNext(h, step);
            Bit(Starts(h, step) && h.phase.row == row) + Bit(h'.phase == Counted(row)) + Calls(h.rows, row)
            <= Calls(h'.rows, row) + Bit(h.phase == Counted(row))
  {
  }

  /** A start is counted before it is made: whatever the crashes,
      a row never shows fewer start calls than were made for it. */
  lemma {:induction false} StartsAreCounted(h: Host, steps: seq<HostStep>, row: nat)
    ensures StartsOf(h, steps, row) + Calls(h.rows, row) <=
              Calls(HostRun(h, steps).rows, row) + Bit(h.phase == Counted(row))
    decreases |steps|
  {
    if steps != [] {
      CallsNext(h, steps[0], row);
      StartsAreCounted(HostNext(h, steps[0]), steps[1..], row);
    }
  }

  /** A row without a receipt in `h` has one in `h'`. */
  predicate NewReceipt(h: Host, h': Host) {
    exists i | 0 <= i < |h'.rows| :: h'.rows[i].receipt && (i < |h.rows| ==> !h.rows[i].receipt)
  }

  /** A step that stops nothing gives a receipt only while the container runs. */
  lemma ReceiptNext(h: Host, step: HostStep)
    requires HostInv(h) && (h.phase.Ran? ==> h.running) && !(step == StoppedOutside && h.running)
    ensures HostNext(h, step).phase.Ran? ==> HostNext(h, step).running
    ensures NewReceipt(h, HostNext(h, step)) ==> HostNext(h, step).running
  {
  }

  lemma NewReceiptSplits(h: Host, h1: Host, h': Host)
    requires HostLater(h, h1) && HostLater(h1, h')
    ensures NewReceipt(h, h') ==> NewReceipt(h, h1) || NewReceipt(h1, h')
  {
  }

  /** A receipt is never given for a container left stopped:
      unless somebody stopped it, it runs once one was written. */
  lemma {:induction false} ReceiptMeansRunning(h: Host, steps: seq<HostStep>)
    requires HostInv(h) && StopsIn(h, steps) == 0 && (h.phase.Ran? ==> h.running)
    ensures NewReceipt(h, HostRun(h, steps)) ==> HostRun(h, steps).running
    decreases |steps|
  {
    if steps != [] {
      var h1 := HostNext(h, steps[0]);
      HostNextLater(h, steps[0]);
      ReceiptNext(h, steps[0]);
      ReceiptMeansRunning(h1, steps[1..]);
      HostForgetsNothing(h1, steps[1..]);
      NewReceiptSplits(h, h1, HostRun(h1, steps[1..]));
      StartsBalance(h1, steps[1..]);
    }
  }

  /** How often the connector died between starting the container for the row and writing its receipt. */
  function DeathsAfterStart(h: Host, steps: seq<HostStep>, row: nat): nat
    decreases |steps|
  {
    if steps == [] then 0
    else Bit(steps[0] == Died && h.phase == Ran(row)) + DeathsAfterStart(HostNext(h, steps[0]), steps[1..], row)
  }

  /** However often the container is stopped, a second start under
      one key takes a death between the first and its receipt. */
  lemma {:induction false} StartedOncePerDeath(h: Host, steps: seq<HostStep>, row: nat)
    requires HostInv(h)
    ensures StartsOf(h, steps, row) <= DeathsAfterStart(h, steps, row) + 1
    ensures h.phase == Ran(row) || (row < |h.rows| && h.rows[row].receipt) ==>
              StartsOf(h, steps, row) <= DeathsAfterStart(h, steps, row)
    decreases |steps|
  {
    if steps != [] {
      HostNextLater(h, steps[0]);
      StartedOncePerDeath(HostNext(h, steps[0]), steps[1..], row);
    }
  }

  /** The action `/diagnostic` names: of the latest recorded row that has a receipt. */
  function LastAction(rows: seq<HostRow>): Option<ActionKey> {
    if rows == [] then None
    else if rows[|rows| - 1].receipt then Some(rows[|rows| - 1].key)
    else LastAction(rows[..|rows| - 1])
  }

  /** A diagnostic names an acknowledged action exactly while no action recorded after it is acknowledged too. */
  lemma {:induction false} NamedWhileLatest(rows: seq<HostRow>, i: nat)
    requires i < |rows| && rows[i].receipt
    requires forall j, k | 0 <= j < |rows| && 0 <= k < |rows| && rows[j].key == rows[k].key :: j == k
    ensures LastAction(rows) == Some(rows[i].key) <==> forall j | i < j < |rows| :: !rows[j].receipt
  {
    if i < |rows| - 1 && !rows[|rows| - 1].receipt {
      NamedWhileLatest(rows[..|rows| - 1], i);
    }
  }

  // --------------------------------------------------------------- the server

  /** Where an exception or a crash cuts a request short; `AfterStart` may have started the container. */
  datatype Cut = NoCut | InDiagnostic | BeforeInspect | BeforeStart | AfterStart

  function AfterRan(cut: Cut): seq<HostStep> {
    if cut == AfterStart then [Died] else [Finished]
  }

  function AfterInspect(h: Host, cut: Cut): seq<HostStep> {
    if h.phase.Ran? then [Finished] else if cut == BeforeStart then [Died] else [Started] + AfterRan(cut)
  }

  function AfterRecord(h: Host, cut: Cut): seq<HostStep> {
    if h.phase == Idle then []
    else if cut == BeforeInspect then [Died]
    else [Inspected] + AfterInspect(HostNext(h, Inspected), cut)
  }

  /** The steps of one request, when nothing else interferes. */
  function Script(h: Host, key: ActionKey, body: RepairBody, cut: Cut): seq<HostStep> {
    if cut == InDiagnostic && IndexOf(h.rows, key) == |h.rows| then []
    else [Asked(key, body)] + AfterRecord(HostNext(h, Asked(key, body)), cut)
  }

  /** The request is not the connector's, is known with another body or a receipt, or expects another container. */
  predicate Dismissed(h: Host, key: ActionKey, body: RepairBody, cut: Cut) {
    var i := IndexOf(h.rows, key);
    || body.service != h.service || body.action != h.action
    || (if i < |h.rows| then h.rows[i].body != body || h.rows[i].receipt
        else cut == InDiagnostic || h.running || h.generation != body.expectedRevision)
  }

  lemma ScriptRuns(h: Host, key: ActionKey, body: RepairBody, cut: Cut)
    requires h.phase == Idle
    ensures var asked := HostNext(h, Asked(key, body));
            HostRun(h, Script(h, key, body, cut)) ==
              if Dismissed(h, key, body, cut) then h else HostRun(asked, AfterRecord(asked, cut))
    ensures !Dismissed(h, key, body, cut) ==>
              var i := IndexOf(h.rows, key);
              HostNext(h, Asked(key, body)) ==
                h.(phase := Recorded(i),
                   rows := if i < |h.rows| then h.rows else h.rows + [HostRow(key, body, false, 0)])
  {
    var asked := HostNext(h, Asked(key, body));
    HostRunFirst(h, Asked(key, body), AfterRecord(asked, cut));
  }

  /** The container runs as before, or was stopped and is started. */
  predicate AtMostStarted(h: Host, h': Host) {
    || (h'.running == h.running && h'.generation == h.generation)
    || (h'.running && !h.running && h'.generation == h.generation + 1)
  }

  class Connector {
    const service: string
    const action: string
    var running: bool
    var generation: int
    var rows: seq<HostRow>

    /** Between requests the lock is free. */
    function View(): Host
      reads this
    {
      Host(service, action, running, generation, rows, Idle)
    }

    constructor (service: string, action: string, running: bool)
      ensures View() == Host(service, action, running, 0, [], Idle) && HostInv(View())
    {
      this.service, this.action, this.running, generation, rows := service, action, running, 0, [];
    }

    /** `SELECT … WHERE action_id = key`. */
    method Find(key: ActionKey) returns (i: nat)
      ensures i == IndexOf(rows, key)
    {
      i := 0;
      while i < |rows| && rows[i].key != key
        invariant i <= |rows|
        invariant forall j | 0 <= j < i :: rows[j].key != key
      {
        i := i + 1;
      }
      IndexUnique(rows, key, i);
    }

    /** One request under the lock, cut short where `cut` says. */
    method DoPost(key: ActionKey, body: RepairBody, cut: Cut) returns (reply: HostReply)
      requires HostInv(View())
      modifies this`running, this`generation, this`rows
      ensures View() == HostRun(old(View()), Script(old(View()), key, body, cut))
      ensures HostLater(old(View()), View())
      ensures reply == Done(key) ==>
                var i := IndexOf(rows, key);
                i < |rows| && rows[i].receipt && rows[i].body == body
      ensures reply in {Unsupported, Conflicting, Changed} ==> View() == old(View())
      ensures reply == Unsupported <==> body.service != service || body.action != action
      ensures var i := IndexOf(old(rows), key);
              && (reply == Conflicting <==>
                    reply != Unsupported && i < |old(rows)| && old(rows)[i].body != body)
              && (reply == Changed <==>
                    && reply != Unsupported && i == |old(rows)| && cut != InDiagnostic
                    && (old(running) || old(generation) != body.expectedRevision))
              && (reply == Done(key) ==> running || (i < |old(rows)| && old(rows)[i].receipt))
      ensures reply == Uncertain ==> cut != NoCut
      ensures AtMostStarted(old(View()), View())
    {
      HostForgetsNothing(View(), Script(View(), key, body, cut));
      ScriptRuns(View(), key, body, cut);
      if body.service != service || body.action != action {
        return Unsupported;
      }
      var i := Find(key);
      if i < |rows| {
        if rows[i].body != body {
          return Conflicting;
        }
        if rows[i].receipt {
          return Done(key);
        }
      } else {
        if cut == InDiagnostic {
          return Uncertain;
        }
        if running || generation != body.expectedRevision {
          return Changed;
        }
        rows := rows + [HostRow(key, body, false, 0)];
      }
      reply := Resume(key, i, cut);
    }

    /** The rest of a request whose action is recorded without a receipt. */
    method Resume(key: ActionKey, i: nat, cut: Cut) returns (reply: HostReply)
      requires i < |rows| && !rows[i].receipt
      modifies this`running, this`generation, this`rows
      ensures var recorded := old(View()).(phase := Recorded(i));
              View() == HostRun(recorded, AfterRecord(recorded, cut))
      ensures reply == Done(key) || (reply == Uncertain && cut != NoCut)
      ensures AtMostStarted(old(View()), View())
      ensures reply == Done(key) ==> running
      ensures reply == Done(key) ==>
                i < |rows| && rows[i] == old(rows)[i].(receipt := true, startCalls := rows[i].startCalls)
    {
      ghost var recorded := View().(phase := Recorded(i));
      ghost var inspected := HostNext(recorded, Inspected);
      HostRunFirst(recorded, Inspected, AfterInspect(inspected, cut));
      HostRunFirst(inspected, Started, AfterRan(cut));
      if cut == BeforeInspect {
        return Uncertain;
      }
      if !running {
        rows := rows[i := rows[i].(startCalls := rows[i].startCalls + 1)];
        if cut == BeforeStart {
          return Uncertain;
        }
        running, generation := true, generation + 1;
        if cut == AfterStart {
          return Uncertain;
        }
      }
      rows := rows[i := rows[i].(receipt := true)];
      reply := Done(key);
    }
  }
}
