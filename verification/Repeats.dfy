/**
 How often a segment gets a row. The INSERT and the unlinking of the files are not one transaction: whatever ends the
 pass between them leaves a segment that has a row and is still queued.
 */
module Repeats {
  import opened Wrappers
  import opened Pipeline
  import opened PipelineFrames
  import opened PipelineInvariant
  import opened CompletionSafety
  import Names

  function RowCount(rows: seq<Row>, seg: Seg): nat {
    if rows == [] then 0
    else RowCount(rows[..|rows| - 1], seg) + if rows[|rows| - 1].seg == seg then 1 else 0
  }

  predicate TouchingAt(mem: Mem, d: nat, seg: Seg) {
    d in mem.drainers && mem.drainers[d].Touching? && mem.drainers[d].seg == seg
  }

  /** A drain task has inserted the row and not yet started to unlink the files. */
  ghost predicate Touched(s: State, seg: Seg) { exists d :: TouchingAt(s.mem, d, seg) }

  /** A crash, or the failure or end of the drain task, strikes just then. */
  ghost predicate Interrupts(s: State, a: Action, seg: Seg) {
    || (a.Crash? && Touched(s, seg))
    || ((a.DrainError? || a.DrainerDies?) && TouchingAt(s.mem, a.d, seg))
  }

  /** The segment has a row, no task is about to remove its files, and they can be read. */
  ghost predicate Exposed(s: State, seg: Seg) {
    seg in s.hist.inserted && Readable(s.disk, seg) && !Touched(s, seg)
  }

  /** How often a run is interrupted there. */
  ghost function Interruptions(s: State, acts: seq<Action>, seg: Seg): nat
    decreases |acts|
  {
    if acts == [] || Next(s, acts[0]).None? then 0
    else (if Interrupts(s, acts[0], seg) then 1 else 0) + Interruptions(Next(s, acts[0]).value, acts[1..], seg)
  }

  // ---- one step ----

  lemma TouchedHasFiles(s: State, seg: Seg)
    requires Drainers(s) && Touched(s, seg)
    ensures seg in s.hist.inserted && Readable(s.disk, seg)
  {
    var d :| TouchingAt(s.mem, d, seg);
    assert Held(s.mem.drainers[d]) == Some((seg, s.mem.drainers[d].meta));
  }

  /** Files of a segment with a row are not written again. */
  lemma ReadableBefore(s: State, a: Action, seg: Seg)
    requires CpuOk(s) && Tables(s) && Next(s, a).Some? && seg in s.hist.inserted
    ensures Readable(Next(s, a).value.disk, seg) ==> Readable(s.disk, seg)
  {
    if a.SpillNext? {
      SpillElsewhere(s, seg);
    } else if OfDrainer(a) {
      DrainShrinks(s, a, seg);
    } else {
      ElseShrinks(s, a, seg);
    }
  }

  lemma ElseShrinks(s: State, a: Action, seg: Seg)
    requires Next(s, a).Some? && !a.SpillNext? && !OfDrainer(a)
    ensures Readable(Next(s, a).value.disk, seg) ==> Readable(s.disk, seg)
  {}

  lemma SpillElsewhere(s: State, seg: Seg)
    requires CpuOk(s) && Tables(s) && SpillStep(s).Some? && seg in s.hist.inserted
    ensures Readable(SpillStep(s).value.disk, seg) ==> Readable(s.disk, seg)
  {
    assert seg != s.mem.cpu.seg;
    if s.mem.cpu.stage == 0 {} else if s.mem.cpu.stage == 1 {}
  }

  lemma DrainShrinks(s: State, a: Action, seg: Seg)
    requires DrainStep(s, a).Some?
    ensures Readable(DrainStep(s, a).value.disk, seg) ==> Readable(s.disk, seg)
  {
    if a.Scan? {
      if Readable(s.disk, a.head) && a.readOk {}
    } else if a.Answer? {
      if a.reply.None? {} else if a.reply.value == "" {}
    } else if a.FinalizeNext? {
      if FinalizeStep(s, a.d).value.disk == s.disk {}
    }
  }

  predicate Inserts(s: State, a: Action, seg: Seg) {
    a.InsertRow? && a.d in s.mem.drainers && s.mem.drainers[a.d].Inserting? && s.mem.drainers[a.d].seg == seg
  }

  /** Who gets to `Touching`, and who leaves it. */
  ghost predicate TouchFrame(s: State, a: Action, t: State, seg: Seg) {
    && (Inserts(s, a, seg) ==> Touched(t, seg))
    && (Touched(t, seg) && !Touched(s, seg) ==> Inserts(s, a, seg))
    && (Touched(s, seg) && !Touched(t, seg) ==> Interrupts(s, a, seg) || !Readable(t.disk, seg))
    && (Interrupts(s, a, seg) ==> !Touched(t, seg) && t.disk == s.disk && t.hist.inserted == s.hist.inserted)
  }

  lemma TouchChange(s: State, a: Action, seg: Seg)
    requires SingleFlight(s) && Next(s, a).Some?
    ensures TouchFrame(s, a, Next(s, a).value, seg)
  {
    if OfDrainer(a) {
      DrainTouch(s, a, seg);
    } else {
      ElseTouch(s, a, seg);
    }
  }

  lemma ElseTouch(s: State, a: Action, seg: Seg)
    requires SingleFlight(s) && Next(s, a).Some? && !OfDrainer(a)
    ensures TouchFrame(s, a, Next(s, a).value, seg)
  {
    if !a.Crash? {
      TasksKept(s, a, seg);
    }
  }

  lemma TasksKept(s: State, a: Action, seg: Seg)
    requires SingleFlight(s) && Next(s, a).Some? && !OfDrainer(a) && !a.Crash?
    ensures forall d :: TouchingAt(Next(s, a).value.mem, d, seg) <==> TouchingAt(s.mem, d, seg)
  {
    if a.SpillNext? {
      if s.mem.cpu.stage == 0 {} else if s.mem.cpu.stage == 1 {}
    }
  }

  lemma DrainTouch(s: State, a: Action, seg: Seg)
    requires SingleFlight(s) && OfDrainer(a) && DrainStep(s, a).Some?
    ensures TouchFrame(s, a, DrainStep(s, a).value, seg)
  {
    if a.InsertRow? {
      InsertTouch(s, a, seg);
    } else if a.TouchMeeting? || a.DrainError? || a.DrainerDies? {
      LeaveTouch(s, a, seg);
    } else {
      DrainTasksKept(s, a, seg);
    }
  }

  lemma InsertTouch(s: State, a: Action, seg: Seg)
    requires SingleFlight(s) && a.InsertRow? && DrainStep(s, a).Some?
    ensures TouchFrame(s, a, DrainStep(s, a).value, seg)
  {
    var t := DrainStep(s, a).value;
    assert forall d :: d != a.d ==> !TouchingAt(s.mem, d, seg) && !TouchingAt(t.mem, d, seg);
    if Inserts(s, a, seg) {
      assert TouchingAt(t.mem, a.d, seg);
    }
  }

  lemma LeaveTouch(s: State, a: Action, seg: Seg)
    requires SingleFlight(s) && DrainStep(s, a).Some? && (a.TouchMeeting? || a.DrainError? || a.DrainerDies?)
    ensures TouchFrame(s, a, DrainStep(s, a).value, seg)
  {
    var t := DrainStep(s, a).value;
    assert forall d :: d != a.d ==> !TouchingAt(s.mem, d, seg);
    assert forall d :: !TouchingAt(t.mem, d, seg);
  }

  lemma DrainTasksKept(s: State, a: Action, seg: Seg)
    requires OfDrainer(a) && DrainStep(s, a).Some?
    requires !a.InsertRow? && !a.TouchMeeting? && !a.DrainError? && !a.DrainerDies?
    ensures forall d :: TouchingAt(DrainStep(s, a).value.mem, d, seg) <==> TouchingAt(s.mem, d, seg)
  {
    if a.Scan? {
      if Readable(s.disk, a.head) && a.readOk {}
    } else if a.Answer? {
      if a.reply.None? {} else if a.reply.value == "" {}
    } else if a.FinalizeNext? {
      var Finalizing(todo, prefixes) := s.mem.drainers[a.d];
      if todo == [] {} else if Names.Decimal(todo[0]) in prefixes {}
    }
  }

  /** A segment becomes exposed exactly when its pass is interrupted between the INSERT and the unlinking. */
  lemma ExposedExactly(s: State, a: Action, seg: Seg)
    requires Reachable(s) && Next(s, a).Some?
    ensures Exposed(Next(s, a).value, seg) && !Exposed(s, seg) <==> Interrupts(s, a, seg)
  {
    ReachableInv(s);
    ExposedChange(s, a, seg);
  }

  lemma ExposedChange(s: State, a: Action, seg: Seg)
    requires Inv(s) && Next(s, a).Some?
    ensures Exposed(Next(s, a).value, seg) && !Exposed(s, seg) <==> Interrupts(s, a, seg)
  {
    var t := Next(s, a).value;
    TouchChange(s, a, seg);
    InsertedChange(s, a, seg);
    if Touched(s, seg) {
      TouchedHasFiles(s, seg);
    }
    if seg in s.hist.inserted {
      ReadableBefore(s, a, seg);
    }
  }

  lemma InsertedChange(s: State, a: Action, seg: Seg)
    requires CpuOk(s) && Next(s, a).Some?
    ensures var t := Next(s, a).value;
      && (seg in t.hist.inserted <==> seg in s.hist.inserted || Inserts(s, a, seg))
      && RowCount(t.db.rows, seg) == RowCount(s.db.rows, seg) + if Inserts(s, a, seg) then 1 else 0
  {
    StepFootprint(s, a);
  }

  // ---- runs ----

  /** What one step may add: a row for a segment that has none or is exposed, and exposure by an interruption. */
  lemma StepBound(s: State, a: Action, seg: Seg)
    requires Reachable(s) && Next(s, a).Some?
    ensures var t := Next(s, a).value;
      RowCount(t.db.rows, seg) + Credit(t, seg)
        <= RowCount(s.db.rows, seg) + Credit(s, seg) + if Interrupts(s, a, seg) then 1 else 0
  {
    ReachableInv(s);
    ExposedChange(s, a, seg);
    InsertedChange(s, a, seg);
    if Inserts(s, a, seg) {
      InsertSpends(s, a, seg);
    }
  }

  /** The rows a segment can still get while no interruption comes. */
  ghost function Credit(s: State, seg: Seg): nat { if seg !in s.hist.inserted || Exposed(s, seg) then 1 else 0 }

  lemma InsertSpends(s: State, a: Action, seg: Seg)
    requires Inv(s) && Next(s, a).Some? && Inserts(s, a, seg)
    ensures Credit(s, seg) == 1 && Credit(Next(s, a).value, seg) == 0
  {
    TouchChange(s, a, seg);
    InsertedChange(s, a, seg);
    HeldHasFiles(s, a.d);
    assert forall d :: d in s.mem.drainers ==> d == a.d;
  }

  lemma HeldHasFiles(s: State, d: nat)
    requires Drainers(s) && d in s.mem.drainers && s.mem.drainers[d].Inserting?
    ensures Readable(s.disk, s.mem.drainers[d].seg)
  {
    assert Held(s.mem.drainers[d]).Some?;
  }

  /** Over any run the rows of a segment grow by no more than its interruptions, and one more if it may get a row. */
  lemma {:induction false} RunBound(s: State, acts: seq<Action>, seg: Seg)
    requires Reachable(s) && Run(s, acts).Some?
    ensures var t := Run(s, acts).value;
      RowCount(t.db.rows, seg) + Credit(t, seg)
        <= RowCount(s.db.rows, seg) + Credit(s, seg) + Interruptions(s, acts, seg)
    decreases |acts|
  {
    if acts != [] {
      StepBound(s, acts[0], seg);
      ReachableStep(s, acts[0]);
      RunBound(Next(s, acts[0]).value, acts[1..], seg);
    }
  }

  lemma {:induction false} CountPositive(rows: seq<Row>, seg: Seg)
    ensures RowCount(rows, seg) > 0 <==> exists i :: 0 <= i < |rows| && rows[i].seg == seg
  {
    if rows != [] {
      CountPositive(rows[..|rows| - 1], seg);
      if RowCount(rows[..|rows| - 1], seg) > 0 {
        var i :| 0 <= i < |rows| - 1 && rows[..|rows| - 1][i].seg == seg;
        assert rows[i].seg == seg;
      } else if rows[|rows| - 1].seg != seg {
        forall i | 0 <= i < |rows|
          ensures rows[i].seg != seg
        {
          assert i < |rows| - 1 ==> rows[..|rows| - 1][i] == rows[i];
        }
      }
    }
  }

  lemma {:induction false} TwoRows(rows: seq<Row>, i: nat, j: nat)
    requires i < j < |rows| && rows[i].seg == rows[j].seg
    ensures RowCount(rows, rows[i].seg) >= 2
  {
    var n := |rows| - 1;
    if j == n {
      CountPositive(rows[..n], rows[i].seg);
      assert rows[..n][i] == rows[i];
    } else {
      TwoRows(rows[..n], i, j);
    }
  }

  /** A segment has one row at most for each interruption of it, and one more; so without any, an inserted segment has
      exactly one row. */
  lemma RowsPerInterruption(acts: seq<Action>, s: State, seg: Seg)
    requires Run(INIT, acts) == Some(s)
    ensures RowCount(s.db.rows, seg) <= 1 + Interruptions(INIT, acts, seg)
    ensures seg in s.hist.inserted <==> RowCount(s.db.rows, seg) >= 1
  {
    assert Run(INIT, []) == Some(INIT);
    RunBound(INIT, acts, seg);
    ReachableTables(s);
    CountPositive(s.db.rows, seg);
  }

  lemma ReachableTables(s: State)
    requires Reachable(s)
    ensures Tables(s)
  {
    ReachableInv(s);
  }

  // ---- the condition is exact ----

  /** A run without interruption. */
  ghost predicate Calm(s: State, acts: seq<Action>, seg: Seg, t: State) {
    Run(s, acts) == Some(t) && Interruptions(s, acts, seg) == 0
  }

  lemma {:induction false} CalmAppend(s: State, a: seq<Action>, t: State, b: seq<Action>, u: State, seg: Seg)
    requires Calm(s, a, seg, t) && Calm(t, b, seg, u)
    ensures Calm(s, a + b, seg, u)
    decreases |a|
  {
    if a == [] {
      assert a + b == b;
    } else {
      assert (a + b)[1..] == a[1..] + b;
      CalmAppend(Next(s, a[0]).value, a[1..], t, b, u, seg);
    }
  }

  /** An exposed segment is at no `Touching`, so the next step does not interrupt it. */
  lemma CalmStep(s: State, a: Action, seg: Seg)
    requires Exposed(s, seg) && Next(s, a).Some?
    ensures Calm(s, [a], seg, Next(s, a).value)
  {
    assert [a][1..] == [];
    assert !Interrupts(s, a, seg);
  }

  /** Some continuation without interruption gives the segment another row. */
  ghost predicate Again(s: State, seg: Seg) {
    exists acts, t :: Calm(s, acts, seg, t) && RowCount(t.db.rows, seg) > RowCount(s.db.rows, seg)
  }

  lemma AgainNeedsExposure(s: State, seg: Seg)
    requires Reachable(s) && seg in s.hist.inserted && Again(s, seg)
    ensures Exposed(s, seg)
  {
    var acts, t :| Calm(s, acts, seg, t) && RowCount(t.db.rows, seg) > RowCount(s.db.rows, seg);
    RunBound(s, acts, seg);
  }

  /** The drain task is at the top of its loop and the segment is exposed. */
  ghost predicate Queued(s: State, d: nat, seg: Seg) { AtTop(s, d) && Exposed(s, seg) }

  /** Only another row or the loss of its files ends the exposure of a segment. */
  lemma StaysExposed(s: State, a: Action, seg: Seg)
    requires Reachable(s) && Exposed(s, seg) && Next(s, a).Some?
    ensures !a.InsertRow? && Readable(Next(s, a).value.disk, seg) ==> Exposed(Next(s, a).value, seg)
  {
    ReachableInv(s);
    TouchChange(s, a, seg);
    InsertedChange(s, a, seg);
  }

  /** A step that leaves the segment exposed, and what is reached from there. */
  lemma Onward(s: State, a: Action, seg: Seg)
    requires Reachable(s) && Exposed(s, seg) && Next(s, a).Some?
    requires !a.InsertRow? && Readable(Next(s, a).value.disk, seg)
    ensures Reachable(Next(s, a).value) && Exposed(Next(s, a).value, seg)
    ensures Calm(s, [a], seg, Next(s, a).value)
    ensures forall acts, t :: Calm(Next(s, a).value, acts, seg, t) ==> Calm(s, [a] + acts, seg, t)
  {
    ReachableStep(s, a);
    StaysExposed(s, a, seg);
    CalmStep(s, a, seg);
    forall acts, t | Calm(Next(s, a).value, acts, seg, t)
      ensures Calm(s, [a] + acts, seg, t)
    {
      CalmAppend(s, [a], Next(s, a).value, acts, t, seg);
    }
  }

  /** A crash and the restart of the drain task leave the segment where it was. */
  lemma Restart(s: State, seg: Seg) returns (acts: seq<Action>, t: State)
    requires Reachable(s) && Exposed(s, seg)
    ensures Calm(s, acts, seg, t) && Queued(t, 0, seg) && t.db == s.db
  {
    Onward(s, Crash, seg);
    var s1 := Next(s, Crash).value;
    t := Next(s1, EnsureDrain(0)).value;
    Onward(s1, EnsureDrain(0), seg);
    acts := [Crash] + [EnsureDrain(0)];
  }

  /** An older head that is answered with silence, or cannot be read, goes. */
  lemma DropOther(s: State, d: nat, head: Seg, seg: Seg) returns (acts: seq<Action>, t: State)
    requires Queued(s, d, seg) && IsHead(s, head) && head != seg
    ensures Calm(s, acts, seg, t) && Queued(t, d, seg) && t.db == s.db
    ensures |t.disk.json.Keys| < |s.disk.json.Keys|
  {
    var acts1, s1 := PickOther(s, d, head, seg);
    var acts2;
    acts2, t := FinishOther(s1, d, head, seg);
    CalmAppend(s, acts1, s1, acts2, t, seg);
    acts := acts1 + acts2;
  }

  lemma PickOther(s: State, d: nat, head: Seg, seg: Seg) returns (acts: seq<Action>, t: State)
    requires Queued(s, d, seg) && IsHead(s, head) && head != seg
    ensures Calm(s, acts, seg, t) && Reachable(t) && Exposed(t, seg) && t.db == s.db
    ensures t.mem.cpu.Deleting? && t.mem.cpu.d == d && t.mem.cpu.seg == head && t.disk.json == s.disk.json
  {
    var scan, silence := Scan(d, head, true), Answer(d, Some(""));
    var s1 := Next(s, scan).value;
    Onward(s, scan, seg);
    if Readable(s.disk, head) {
      Onward(s1, silence, seg);
      acts, t := [scan] + [silence], Next(s1, silence).value;
    } else {
      acts, t := [scan], s1;
    }
  }

  lemma FinishOther(s: State, d: nat, head: Seg, seg: Seg) returns (acts: seq<Action>, t: State)
    requires Reachable(s) && Exposed(s, seg) && head in s.disk.json && head != seg
    requires s.mem.cpu.Deleting? && s.mem.cpu.d == d && s.mem.cpu.seg == head
    ensures Calm(s, acts, seg, t) && Queued(t, d, seg) && t.db == s.db
    ensures |t.disk.json.Keys| < |s.disk.json.Keys|
  {
    var s1 := Next(s, UnlinkJson).value;
    Onward(s, UnlinkJson, seg);
    t := Next(s1, DrainError(d)).value;
    Onward(s1, DrainError(d), seg);
    acts := [UnlinkJson] + [DrainError(d)];
    assert t.disk.json.Keys == s.disk.json.Keys - {head};
  }

  lemma {:induction false} DropOthers(s: State, d: nat, seg: Seg) returns (acts: seq<Action>, t: State)
    requires Queued(s, d, seg)
    ensures Calm(s, acts, seg, t) && Queued(t, d, seg) && IsHead(t, seg) && t.db == s.db
    decreases |s.disk.json.Keys|
  {
    HeadExists(s);
    var head :| IsHead(s, head);
    if head == seg {
      acts, t := [], s;
    } else {
      var acts1, s1 := DropOther(s, d, head, seg);
      var acts2;
      acts2, t := DropOthers(s1, d, seg);
      CalmAppend(s, acts1, s1, acts2, t, seg);
      acts := acts1 + acts2;
    }
  }

  /** The head is read, answered with text and inserted once more. */
  lemma InsertAgain(s: State, d: nat, seg: Seg) returns (acts: seq<Action>, t: State)
    requires Queued(s, d, seg) && IsHead(s, seg)
    ensures Calm(s, acts, seg, t) && RowCount(t.db.rows, seg) == RowCount(s.db.rows, seg) + 1
  {
    var scan, answer, insert := Scan(d, seg, true), Answer(d, Some("x")), InsertRow(d);
    var s1 := Next(s, scan).value;
    Onward(s, scan, seg);
    var s2 := Next(s1, answer).value;
    Onward(s1, answer, seg);
    t := Next(s2, insert).value;
    CalmStep(s2, insert, seg);
    acts := [scan] + ([answer] + [insert]);
    assert t.db.rows[..|s.db.rows|] == s.db.rows;
  }

  lemma ExposureSuffices(s: State, seg: Seg)
    requires Reachable(s) && Exposed(s, seg)
    ensures Again(s, seg)
  {
    var acts1, s1 := Restart(s, seg);
    var acts2, s2 := DropOthers(s1, 0, seg);
    var acts3, t := InsertAgain(s2, 0, seg);
    CalmAppend(s1, acts2, s2, acts3, t, seg);
    CalmAppend(s, acts1, s1, acts2 + acts3, t, seg);
  }

  /** A segment that has a row can get another one, without a further interruption, exactly while it is exposed. */
  lemma AgainExact(s: State, seg: Seg)
    requires Reachable(s) && seg in s.hist.inserted
    ensures Again(s, seg) <==> Exposed(s, seg)
  {
    if Exposed(s, seg) {
      ExposureSuffices(s, seg);
    } else if Again(s, seg) {
      AgainNeedsExposure(s, seg);
    }
  }

  /** What makes a segment with a row able to get another one is exactly an interruption between the INSERT and the
      unlinking of its files. */
  lemma InterruptionExact(s: State, a: Action, seg: Seg)
    requires Reachable(s) && Next(s, a).Some? && seg in Next(s, a).value.hist.inserted && !Exposed(s, seg)
    ensures Again(Next(s, a).value, seg) <==> Interrupts(s, a, seg)
  {
    ReachableStep(s, a);
    ExposedExactly(s, a, seg);
    AgainExact(Next(s, a).value, seg);
  }

  // ---- when the rows are final ----

  /** No continuation at all, whatever fails in it, adds a row. */
  ghost predicate RowsFinal(s: State, seg: Seg) {
    forall acts: seq<Action> ::
      Run(s, acts).Some? ==> RowCount(Run(s, acts).value.db.rows, seg) == RowCount(s.db.rows, seg)
  }

  lemma {:induction false} UnreadableStays(s: State, acts: seq<Action>, seg: Seg)
    requires Reachable(s) && seg in s.hist.inserted && !Readable(s.disk, seg) && Run(s, acts).Some?
    ensures RowCount(Run(s, acts).value.db.rows, seg) == RowCount(s.db.rows, seg)
    decreases |acts|
  {
    if acts != [] {
      UnreadableStep(s, acts[0], seg);
      ReachableStep(s, acts[0]);
      UnreadableStays(Next(s, acts[0]).value, acts[1..], seg);
    }
  }

  lemma UnreadableStep(s: State, a: Action, seg: Seg)
    requires Reachable(s) && seg in s.hist.inserted && !Readable(s.disk, seg) && Next(s, a).Some?
    ensures var t := Next(s, a).value;
      && seg in t.hist.inserted && !Readable(t.disk, seg)
      && RowCount(t.db.rows, seg) == RowCount(s.db.rows, seg)
  {
    ReachableInv(s);
    ReadableBefore(s, a, seg);
    InsertedChange(s, a, seg);
    if Inserts(s, a, seg) {
      HeldHasFiles(s, a.d);
    }
  }

  lemma ReadableIsNotFinal(s: State, seg: Seg)
    requires Reachable(s) && seg in s.hist.inserted && Readable(s.disk, seg)
    ensures !RowsFinal(s, seg)
  {
    var t := Next(s, Crash).value;
    ReachableStep(s, Crash);
    ExposureSuffices(t, seg);
    var acts, u :| Calm(t, acts, seg, u) && RowCount(u.db.rows, seg) > RowCount(t.db.rows, seg);
    RunCons(s, Crash, acts);
    assert Run(s, [Crash] + acts) == Some(u);
  }

  /** The rows of a segment that has one are final, whatever fails, exactly once its files cannot be read any more. */
  lemma RowsFinalExact(s: State, seg: Seg)
    requires Reachable(s) && seg in s.hist.inserted
    ensures RowsFinal(s, seg) <==> !Readable(s.disk, seg)
  {
    if Readable(s.disk, seg) {
      ReadableIsNotFinal(s, seg);
    } else {
      forall acts: seq<Action> | Run(s, acts).Some?
        ensures RowCount(Run(s, acts).value.db.rows, seg) == RowCount(s.db.rows, seg)
      {
        UnreadableStays(s, acts, seg);
      }
    }
  }
}
