/**
 The crash-prone directory refines a FIFO queue, and rows of `transcriptions` follow spill order. Both need
 what `scan_pending` sorts by to agree with that order: modification times strictly increasing.
 */
module Fifo {
  import opened Wrappers
  import opened Pipeline
  import opened PipelineFrames
  import opened PipelineInvariant
  import Names
  import Repeats

  /** The sidecars' modification times increase in the order they were created. */
  ghost predicate Monotone(s: State) {
    && (forall i :: 0 <= i < |s.hist.order| ==> s.hist.order[i] in s.hist.mtime)
    && forall i, j :: 0 <= i < j < |s.hist.order| ==> s.hist.mtime[s.hist.order[i]] < s.hist.mtime[s.hist.order[j]]
  }

  /** `order` lists each sidecar ever created once; a spill in progress is the last of them. */
  ghost predicate Ordered(s: State) {
    && (forall seg :: seg in s.hist.order <==> seg in s.hist.mtime)
    && (forall i, j :: 0 <= i < j < |s.hist.order| ==> s.hist.order[i] != s.hist.order[j])
    && (s.mem.cpu.Spilling? ==> s.hist.order != [] && s.hist.order[|s.hist.order| - 1] == s.mem.cpu.seg)
  }

  /** No file in the directory is older than what the drainer holds. */
  ghost predicate HeldOldest(s: State) {
    forall d, x :: d in s.mem.drainers && Held(s.mem.drainers[d]).Some? && x in s.disk.json && x in s.hist.mtime ==>
      var seg := Held(s.mem.drainers[d]).value.0;
      seg in s.hist.mtime && s.hist.mtime[seg] <= s.hist.mtime[x]
  }

  /** No file in the directory is older than what has a row. */
  ghost predicate RowsOldest(s: State) {
    forall i, x :: 0 <= i < |s.db.rows| && x in s.disk.json && x in s.hist.mtime ==>
      s.db.rows[i].seg in s.hist.mtime && s.hist.mtime[s.db.rows[i].seg] <= s.hist.mtime[x]
  }

  ghost predicate RowsSorted(s: State) {
    forall i, j :: 0 <= i < j < |s.db.rows| ==>
      s.db.rows[i].seg in s.hist.mtime && s.db.rows[j].seg in s.hist.mtime
      && s.hist.mtime[s.db.rows[i].seg] <= s.hist.mtime[s.db.rows[j].seg]
  }

  ghost predicate OldestFirst(s: State) { HeldOldest(s) && RowsOldest(s) && RowsSorted(s) }

  ghost predicate FifoInv(s: State) { Ordered(s) && (Monotone(s) ==> OldestFirst(s)) }

  /** How a step changes the creation history: not at all, or one fresh sidecar at the end. */
  ghost predicate OrderFrame(s: State, a: Action, t: State) {
    || (t.hist.order == s.hist.order && t.hist.mtime == s.hist.mtime && t.disk.json.Keys <= s.disk.json.Keys)
    || (a.SpillOpen? && a.seg !in s.hist.mtime && t.hist.order == s.hist.order + [a.seg]
          && t.hist.mtime == s.hist.mtime[a.seg := a.stamp] && t.disk.json.Keys == s.disk.json.Keys + {a.seg}
          && t.db.rows == s.db.rows && t.mem.drainers == s.mem.drainers)
  }

  lemma OrderChange(s: State, a: Action)
    requires Directory(s) && CpuOk(s) && Next(s, a).Some?
    ensures OrderFrame(s, a, Next(s, a).value)
  {
    StepFootprint(s, a);
  }

  lemma OrderedKeeps(s: State, a: Action)
    requires Directory(s) && CpuOk(s) && Ordered(s) && Next(s, a).Some?
    ensures Ordered(Next(s, a).value)
    ensures Monotone(Next(s, a).value) ==> Monotone(s)
  {
    OrderChange(s, a);
    SpillingChange(s, a);
    OrderedFrame(s, a, Next(s, a).value);
  }

  /** Only the start of a spill, and going on with it, is spilling. */
  ghost predicate SpillFrame(s: State, a: Action, t: State) {
    t.mem.cpu.Spilling? ==>
      if a.SpillOpen? then t.mem.cpu.seg == a.seg && t.hist.order == s.hist.order + [a.seg]
      else s.mem.cpu.Spilling? && t.mem.cpu.seg == s.mem.cpu.seg
  }

  lemma SpillingChange(s: State, a: Action)
    requires CpuOk(s) && Next(s, a).Some?
    ensures SpillFrame(s, a, Next(s, a).value)
  {
    StepFootprint(s, a);
  }

  lemma OrderedFrame(s: State, a: Action, t: State)
    requires Ordered(s) && OrderFrame(s, a, t) && SpillFrame(s, a, t)
    ensures Ordered(t) && (Monotone(t) ==> Monotone(s))
  {
    if t.hist.order != s.hist.order {
      OrderedSnoc(s, t, a.seg);
    }
  }

  lemma OrderedSnoc(s: State, t: State, seg: Seg)
    requires Ordered(s) && seg !in s.hist.mtime
    requires t.hist.order == s.hist.order + [seg] && t.hist.mtime.Keys == s.hist.mtime.Keys + {seg}
    requires forall x :: x in s.hist.mtime ==> t.hist.mtime[x] == s.hist.mtime[x]
    requires t.mem.cpu.Spilling? ==> t.mem.cpu.seg == seg
    ensures Ordered(t) && (Monotone(t) ==> Monotone(s))
  {
    var n := |s.hist.order|;
    assert forall i :: 0 <= i < n ==> t.hist.order[i] == s.hist.order[i];
    assert t.hist.order[n] == seg;
    assert forall x :: x in t.hist.order <==> x in s.hist.order || x == seg;
  }

  /** What a step does to the segments drain tasks hold: a task takes the head of the directory or goes on. */
  ghost predicate HeldFrame(s: State, a: Action, t: State) {
    forall d :: d in t.mem.drainers && Held(t.mem.drainers[d]).Some? ==>
      || (d in s.mem.drainers && Held(s.mem.drainers[d]) == Held(t.mem.drainers[d]))
      || (a.Scan? && IsHead(s, a.head) && Held(t.mem.drainers[d]).value.0 == a.head)
  }

  /** What it does to the rows: one is appended for a held segment. */
  ghost predicate RowsFrame(s: State, t: State) {
    || t.db.rows == s.db.rows
    || (exists d, row: Row :: d in s.mem.drainers && Held(s.mem.drainers[d]) == Some((row.seg, row.meta))
          && t.db.rows == s.db.rows + [row])
  }

  lemma HeldChange(s: State, a: Action)
    requires Next(s, a).Some?
    ensures HeldFrame(s, a, Next(s, a).value)
  {
    if OfDrainer(a) {
      HeldDrain(s, a);
    } else if a.SpillNext? {
      if s.mem.cpu.stage == 0 {} else if s.mem.cpu.stage == 1 {}
    }
  }

  lemma HeldDrain(s: State, a: Action)
    requires s.mem.cpu.Free? && DrainStep(s, a).Some?
    ensures HeldFrame(s, a, DrainStep(s, a).value)
  {
    if a.Scan? || a.Answer? {
      HeldHead(s, a);
    } else if a.FinalizeNext? {
      var Finalizing(todo, prefixes) := s.mem.drainers[a.d];
      if todo == [] {} else if Names.Decimal(todo[0]) in prefixes {}
    }
  }

  lemma HeldHead(s: State, a: Action)
    requires s.mem.cpu.Free? && DrainStep(s, a).Some? && (a.Scan? || a.Answer?)
    ensures HeldFrame(s, a, DrainStep(s, a).value)
  {
    if a.Scan? {
      if Readable(s.disk, a.head) && a.readOk {}
    } else {
      if a.reply.None? {} else if a.reply.value == "" {}
    }
  }

  lemma RowsChange(s: State, a: Action)
    requires CpuOk(s) && Next(s, a).Some?
    ensures RowsFrame(s, Next(s, a).value)
  {
    StepFootprint(s, a);
    if a.InsertRow? {
      RowInserted(s, a.d);
    }
  }

  lemma RowInserted(s: State, d: nat)
    requires InsertRowStep(s, d).Some?
    ensures RowsFrame(s, InsertRowStep(s, d).value)
  {
    var Inserting(seg, meta, text) := s.mem.drainers[d];
    var row := Row(seg, meta, text);
    assert Held(s.mem.drainers[d]) == Some((row.seg, row.meta));
  }

  /** A sidecar just created is newer than every other. */
  lemma NewestStamp(s: State, t: State, seg: Seg, x: Seg)
    requires Ordered(s) && Monotone(t) && t.hist.order == s.hist.order + [seg] && x in s.hist.mtime
    ensures x in t.hist.mtime && seg in t.hist.mtime && t.hist.mtime[x] < t.hist.mtime[seg]
  {
    var i :| 0 <= i < |s.hist.order| && s.hist.order[i] == x;
    assert t.hist.order[i] == x && t.hist.order[|s.hist.order|] == seg;
  }

  lemma OldestFirstKeeps(s: State, a: Action)
    requires Inv(s) && Ordered(s) && OldestFirst(s) && Next(s, a).Some?
    requires Monotone(Next(s, a).value)
    ensures OldestFirst(Next(s, a).value)
  {
    OrderChange(s, a);
    HeldChange(s, a);
    RowsChange(s, a);
    HeldAndRowsStamped(s);
    OldestFirstFrame(s, a, Next(s, a).value);
  }

  /** Held segments and rows refer to sidecars that were created, and held ones to sidecars still there. */
  ghost predicate Stamped(s: State) {
    && (forall d :: d in s.mem.drainers && Held(s.mem.drainers[d]).Some? ==>
          Held(s.mem.drainers[d]).value.0 in s.disk.json && Held(s.mem.drainers[d]).value.0 in s.hist.mtime)
    && (forall i :: 0 <= i < |s.db.rows| ==> s.db.rows[i].seg in s.hist.mtime)
  }

  lemma HeldAndRowsStamped(s: State)
    requires Inv(s)
    ensures Stamped(s)
  {}

  lemma OldestFirstFrame(s: State, a: Action, t: State)
    requires Ordered(s) && OldestFirst(s) && Stamped(s) && Monotone(t)
    requires OrderFrame(s, a, t) && HeldFrame(s, a, t) && RowsFrame(s, t)
    ensures OldestFirst(t)
  {
    if t.hist.order != s.hist.order {
      NewestLast(s, a, t);
    } else {
      HeldOldestFrame(s, a, t);
      RowsOldestFrame(s, a, t);
    }
  }

  lemma NewestLast(s: State, a: Action, t: State)
    requires Ordered(s) && OldestFirst(s) && Stamped(s) && Monotone(t)
    requires OrderFrame(s, a, t) && t.hist.order != s.hist.order
    ensures OldestFirst(t)
  {
    forall x | x in s.hist.mtime
      ensures t.hist.mtime[x] < t.hist.mtime[a.seg]
    {
      NewestStamp(s, t, a.seg, x);
    }
  }

  lemma HeldOldestFrame(s: State, a: Action, t: State)
    requires HeldOldest(s) && OrderFrame(s, a, t) && HeldFrame(s, a, t) && t.hist.order == s.hist.order
    ensures HeldOldest(t)
  {}

  lemma RowsOldestFrame(s: State, a: Action, t: State)
    requires OldestFirst(s) && Stamped(s) && OrderFrame(s, a, t) && RowsFrame(s, t) && t.hist.order == s.hist.order
    ensures RowsOldest(t) && RowsSorted(t)
  {}

  lemma {:induction false} FifoRun(s: State, acts: seq<Action>)
    requires Inv(s) && FifoInv(s) && Run(s, acts).Some?
    ensures Inv(Run(s, acts).value) && FifoInv(Run(s, acts).value)
    decreases |acts|
  {
    if acts != [] {
      var t := Next(s, acts[0]).value;
      StepKeeps(s, acts[0]);
      OrderedKeeps(s, acts[0]);
      if Monotone(t) {
        OldestFirstKeeps(s, acts[0]);
      }
      FifoRun(t, acts[1..]);
    }
  }

  lemma ReachableFifo(s: State)
    requires Reachable(s)
    ensures Inv(s) && FifoInv(s)
  {
    var acts: seq<Action> :| Run(INIT, acts) == Some(s);
    FifoAtStart();
    FifoRun(INIT, acts);
  }

  lemma FifoAtStart()
    ensures Inv(INIT) && FifoInv(INIT)
  {}

  lemma RepeatedIsInterrupted(acts: seq<Action>, s: State, i: nat, j: nat)
    requires Run(INIT, acts) == Some(s) && i < j < |s.db.rows| && s.db.rows[i].seg == s.db.rows[j].seg
    ensures Repeats.Interruptions(INIT, acts, s.db.rows[i].seg) > 0
  {
    Repeats.TwoRows(s.db.rows, i, j);
    Repeats.RowsPerInterruption(acts, s, s.db.rows[i].seg);
  }

  /** Rows follow spill order; repeats of a segment are contiguous, and need an interruption between its INSERT and the
      unlinking of its files. */
  lemma RowsFollowSpillOrder(acts: seq<Action>, s: State, i: nat, j: nat, p: nat, q: nat)
    requires Run(INIT, acts) == Some(s) && Monotone(s) && i < j < |s.db.rows|
    requires p < |s.hist.order| && q < |s.hist.order|
    requires s.hist.order[p] == s.db.rows[i].seg && s.hist.order[q] == s.db.rows[j].seg
    ensures p <= q
    ensures p == q ==> forall k :: i < k < j ==> s.db.rows[k].seg == s.db.rows[i].seg
    ensures p == q ==> Repeats.Interruptions(INIT, acts, s.db.rows[i].seg) > 0
  {
    ReachableFifo(s);
    if p == q {
      RepeatedIsInterrupted(acts, s, i, j);
    }
    assert s.hist.mtime[s.db.rows[i].seg] <= s.hist.mtime[s.db.rows[j].seg];
    forall k | i < k < j && p == q
      ensures s.db.rows[k].seg == s.db.rows[i].seg
    {
      var x, y := s.db.rows[k].seg, s.db.rows[i].seg;
      assert s.hist.mtime[y] <= s.hist.mtime[x] <= s.hist.mtime[y];
      var r :| 0 <= r < |s.hist.order| && s.hist.order[r] == x;
      assert r == p;
    }
  }

  // ---- refinement of a queue ----

  /** The elements of a sequence that belong to a set, in order. */
  ghost function Keep(xs: seq<Seg>, live: set<Seg>): seq<Seg> {
    if xs == [] then []
    else Keep(xs[..|xs| - 1], live) + (if xs[|xs| - 1] in live then [xs[|xs| - 1]] else [])
  }

  /** The abstract queue: spilled segments not yet settled nor deleted unread, in spill order. */
  ghost function Queue(s: State): seq<Seg> {
    Keep(s.hist.order, Live(s))
  }

  lemma {:induction false} KeepSame(xs: seq<Seg>, live: set<Seg>, live': set<Seg>)
    requires forall x :: x in xs ==> (x in live <==> x in live')
    ensures Keep(xs, live) == Keep(xs, live')
  {
    if xs != [] {
      KeepSame(xs[..|xs| - 1], live, live');
    }
  }

  lemma {:induction false} KeepNone(xs: seq<Seg>, live: set<Seg>)
    requires forall x :: x in xs ==> x !in live
    ensures Keep(xs, live) == []
  {
    if xs != [] {
      KeepNone(xs[..|xs| - 1], live);
    }
  }

  /** Removing the first live element removes the head. */
  lemma {:induction false} KeepTail(xs: seq<Seg>, live: set<Seg>, p: nat)
    requires p < |xs| && xs[p] in live
    requires forall i :: 0 <= i < p ==> xs[i] !in live
    requires forall i :: p < i < |xs| ==> xs[i] != xs[p]
    ensures Keep(xs, live) == [xs[p]] + Keep(xs, live - {xs[p]})
  {
    var n := |xs| - 1;
    if p == n {
      KeepNone(xs[..n], live);
      KeepNone(xs[..n], live - {xs[p]});
    } else {
      KeepTail(xs[..n], live, p);
      assert xs[..n][p] == xs[p];
    }
  }

  /** A segment is no newer than any live one. */
  ghost predicate Oldest(s: State, seg: Seg) {
    forall x :: x in Live(s) ==> seg in s.hist.mtime && x in s.hist.mtime && s.hist.mtime[seg] <= s.hist.mtime[x]
  }

  lemma HeldIsOldest(s: State, d: nat)
    requires Inv(s) && Ordered(s) && OldestFirst(s) && d in s.mem.drainers && Held(s.mem.drainers[d]).Some?
    ensures Oldest(s, Held(s.mem.drainers[d]).value.0)
  {}

  lemma HeadIsOldest(s: State, head: Seg)
    requires Inv(s) && IsHead(s, head)
    ensures Oldest(s, head)
  {}

  /** The segment an action takes out: a row is inserted for it, its answer is empty, or its files cannot be read. */
  ghost function Removes(s: State, a: Action): Option<Seg> {
    match a
    case Answer(d, reply) =>
      if reply == Some("") && d in s.mem.drainers && s.mem.drainers[d].Transcribing?
      then Some(s.mem.drainers[d].seg) else None
    case InsertRow(d) =>
      if d in s.mem.drainers && s.mem.drainers[d].Inserting? then Some(s.mem.drainers[d].seg) else None
    case Scan(_, head, readOk) => if !readOk && Loses(s, head) then Some(head) else None
    case _ => None
  }

  /** The segment whose spill an action completes. */
  ghost function Completes(s: State, a: Action): Option<Seg> {
    if a.SpillNext? && s.mem.cpu.Spilling? && s.mem.cpu.stage == 2 then Some(s.mem.cpu.seg) else None
  }

  ghost function Live(s: State): set<Seg> { s.hist.spilled - s.hist.inserted - s.hist.silent - s.hist.unread }

  /** Taking out a segment no newer than the live ones takes the head off the queue, or repeats an earlier answer. */
  lemma RemoveHead(s: State, seg: Seg)
    requires Ordered(s) && Monotone(s) && Oldest(s, seg) && s.hist.spilled <= s.hist.mtime.Keys
    ensures Keep(s.hist.order, Live(s) - {seg}) ==
      if Queue(s) != [] && Queue(s)[0] == seg then Queue(s)[1..] else Queue(s)
  {
    if seg !in Live(s) {
      KeepSame(s.hist.order, Live(s), Live(s) - {seg});
      KeepWithin(s.hist.order, Live(s));
    } else {
      var p :| 0 <= p < |s.hist.order| && s.hist.order[p] == seg;
      forall i | 0 <= i < p
        ensures s.hist.order[i] !in Live(s)
      {
        assert s.hist.mtime[s.hist.order[i]] < s.hist.mtime[s.hist.order[p]];
      }
      KeepTail(s.hist.order, Live(s), p);
    }
  }

  lemma {:induction false} KeepWithin(xs: seq<Seg>, live: set<Seg>)
    ensures forall x :: x in Keep(xs, live) ==> x in live
  {
    if xs != [] {
      KeepWithin(xs[..|xs| - 1], live);
    }
  }

  /** Who changes the set of live segments. */
  ghost predicate LiveFrame(s: State, a: Action, t: State) {
    match (Completes(s, a), Removes(s, a))
    case (Some(seg), _) => seg !in Live(s) && Live(t) == Live(s) + {seg}
    case (_, Some(seg)) => Live(t) == Live(s) - {seg}
    case _ => Live(t) == Live(s)
  }

  lemma LiveChange(s: State, a: Action)
    requires Fates(s) && CpuOk(s) && Directory(s) && Tables(s) && Next(s, a).Some?
    ensures LiveFrame(s, a, Next(s, a).value)
  {
    if a.SpillNext? {
      SpillLive(s);
    } else if a.Scan? {
      ScanLive(s, a.d, a.head, a.readOk);
    } else if a.Answer? {
      AnswerLive(s, a.d, a.reply);
    } else {
      OthersKeepLive(s, a);
    }
  }

  lemma OthersKeepLive(s: State, a: Action)
    requires CpuOk(s) && Next(s, a).Some? && !a.SpillNext? && !a.Scan? && !a.Answer?
    ensures LiveFrame(s, a, Next(s, a).value)
  {
    StepFootprint(s, a);
  }

  lemma SpillLive(s: State)
    requires Fates(s) && CpuOk(s) && Directory(s) && Tables(s) && SpillStep(s).Some?
    ensures LiveFrame(s, SpillNext, SpillStep(s).value)
  {
    if s.mem.cpu.stage == 0 {
    } else if s.mem.cpu.stage == 1 {
    } else {
      assert s.mem.cpu.seg !in s.hist.inserted && s.mem.cpu.seg !in s.hist.silent;
    }
  }

  lemma ScanLive(s: State, d: nat, head: Seg, readOk: bool)
    requires ScanStep(s, d, head, readOk).Some?
    ensures LiveFrame(s, Scan(d, head, readOk), ScanStep(s, d, head, readOk).value)
  {
    if Readable(s.disk, head) && readOk {}
  }

  lemma AnswerLive(s: State, d: nat, reply: Option<string>)
    requires AnswerStep(s, d, reply).Some?
    ensures LiveFrame(s, Answer(d, reply), AnswerStep(s, d, reply).value)
  {
    if reply.None? {} else if reply.value == "" {}
  }

  /** Refinement, step by step and through crashes: completing a spill appends at the tail of the abstract queue; a row
      or an empty answer for its head takes the head off, and so does a failing read of its files; and every other step
      leaves the queue alone. */
  lemma DirectoryRefinesQueue(s: State, a: Action)
    requires Reachable(s) && Next(s, a).Some? && Monotone(Next(s, a).value)
    ensures var t := Next(s, a).value;
      match Completes(s, a)
      case Some(seg) => Queue(t) == Queue(s) + [seg]
      case None =>
        if Queue(s) != [] && Removes(s, a) == Some(Queue(s)[0]) then Queue(t) == Queue(s)[1..]
        else Queue(t) == Queue(s)
  {
    ReachableFifo(s);
    LiveChange(s, a);
    OrderedKeeps(s, a);
    OrderChange(s, a);
    if Completes(s, a).Some? {
      CompletingEnqueues(s, a);
    } else if Removes(s, a).Some? {
      RemovedIsOldest(s, a);
      RemoveHead(s, Removes(s, a).value);
    } else {
      OpeningIsInvisible(s, a);
    }
  }

  lemma RemovedIsOldest(s: State, a: Action)
    requires Inv(s) && Ordered(s) && OldestFirst(s) && Next(s, a).Some? && Removes(s, a).Some?
    ensures Oldest(s, Removes(s, a).value)
    ensures Next(s, a).value.hist.order == s.hist.order
  {
    if a.Scan? {
      HeadIsOldest(s, a.head);
    } else {
      HeldIsOldest(s, a.d);
    }
    StepFootprint(s, a);
  }

  /** What is in the queue: the spilled segments that are neither settled nor deleted because a read of them failed; and
      each of them still has both its files. */
  lemma {:induction false} QueueIsExact(s: State, seg: Seg)
    requires Reachable(s)
    ensures seg in Queue(s) <==> seg in s.hist.spilled && !Settled(s, seg) && seg !in s.hist.unread
    ensures seg in Queue(s) ==> Readable(s.disk, seg)
  {
    ReachableFifo(s);
    KeepExactly(s.hist.order, Live(s), seg);
  }

  lemma {:induction false} KeepExactly(xs: seq<Seg>, live: set<Seg>, x: Seg)
    ensures x in Keep(xs, live) <==> x in xs && x in live
  {
    if xs != [] {
      KeepExactly(xs[..|xs| - 1], live, x);
      assert x in xs <==> x in xs[..|xs| - 1] || x == xs[|xs| - 1];
    }
  }

  lemma CompletingEnqueues(s: State, a: Action)
    requires Ordered(s) && Next(s, a).Some? && Completes(s, a).Some?
    requires s.mem.cpu.seg !in Live(s) && Live(Next(s, a).value) == Live(s) + {s.mem.cpu.seg}
    ensures Queue(Next(s, a).value) == Queue(s) + [s.mem.cpu.seg]
  {
    var n := |s.hist.order| - 1;
    KeepSame(s.hist.order[..n], Live(s), Live(s) + {s.mem.cpu.seg});
  }

  lemma OpeningIsInvisible(s: State, a: Action)
    requires Next(s, a).Some? && OrderFrame(s, a, Next(s, a).value) && Live(Next(s, a).value) == Live(s)
    requires s.hist.spilled <= s.hist.mtime.Keys
    ensures Queue(Next(s, a).value) == Queue(s)
  {
    var t := Next(s, a).value;
    var n := |s.hist.order|;
    if t.hist.order != s.hist.order {
      assert t.hist.order[..n] == s.hist.order;
    }
  }

  /** While anything is queued, a drain task at the top of its loop goes on with the oldest sidecar and with nothing
      else; it comes to a finalization pass from there only when the directory is empty. */
  lemma PassTakesHead(s: State, a: Action, d: nat)
    requires SingleFlight(s) && s.mem.cpu.Free? && Next(s, a).Some? && d in s.mem.drainers && s.mem.drainers[d].Top?
    ensures var t := Next(s, a).value;
      d in t.mem.drainers && !t.mem.drainers[d].Top? ==>
        if s.disk.json == map[] then t.mem.drainers[d].Finalizing?
        else a.Scan? && IsHead(s, a.head) && t.mem.drainers[d] == Transcribing(a.head, s.disk.json[a.head].meta)
  {
    if OfDrainer(a) {
      TopDrain(s, a, d);
    }
  }

  lemma TopDrain(s: State, a: Action, d: nat)
    requires s.mem.cpu.Free? && DrainStep(s, a).Some? && d in s.mem.drainers && s.mem.drainers[d].Top?
    ensures var t := DrainStep(s, a).value;
      d in t.mem.drainers && !t.mem.drainers[d].Top? ==>
        if s.disk.json == map[] then t.mem.drainers[d].Finalizing?
        else a.Scan? && IsHead(s, a.head) && t.mem.drainers[d] == Transcribing(a.head, s.disk.json[a.head].meta)
  {
    if a.Scan? {
      if Readable(s.disk, a.head) && a.readOk {}
    } else if a.Answer? {
      if a.reply.None? {} else if a.reply.value == "" {}
    } else if a.FinalizeNext? {
      var Finalizing(todo, prefixes) := s.mem.drainers[a.d];
      if todo == [] {} else if Names.Decimal(todo[0]) in prefixes {}
    }
  }
}
