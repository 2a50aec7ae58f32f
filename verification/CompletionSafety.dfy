/**
 What a `completed` row promises. Two things can break the promise that every spilled segment was dealt with: `/leave`
 does not await the store tasks that `flusher` created, and the drainer deletes files whose reading fails. This module
 proves that nothing else can.
 */
module CompletionSafety {
  import opened Wrappers
  import opened Bytes
  import opened Pipeline
  import opened PipelineFrames
  import opened PipelineInvariant
  import Names

  /** Every fully spilled segment of the meeting has a row or was answered as silence. */
  ghost predicate AllSettled(s: State, m: nat) {
    forall seg :: seg in s.hist.spilled && seg.meeting == m ==> Settled(s, seg)
  }

  /** A settled segment was dealt with for real: there is a row carrying exactly the cut's meeting, session and times,
      the latter since the start of the recording, and a name given for the user whose sound was cut; or an empty answer
      of the worker. */
  lemma SettledMeansRow(s: State, seg: Seg)
    requires Reachable(s) && Settled(s, seg) && seg !in s.hist.silent
    ensures seg in s.hist.cuts
    ensures exists i :: (
      && 0 <= i < |s.db.rows| && s.db.rows[i].seg == seg && s.db.rows[i].text != ""
      && var meta, job := s.db.rows[i].meta, s.hist.cuts[seg];
      && meta.meeting == seg.meeting && meta.session == job.rec.session
      && meta.t0 == job.t0 - job.rec.base && meta.t1 == job.t1 - job.rec.base
      && (seg.meeting, job.user, meta.speaker) in s.hist.named)
  {
    ReachableInv(s);
    var i :| 0 <= i < |s.db.rows| && s.db.rows[i].seg == seg;
    assert s.db.rows[i].text != "";
  }

  // ---- failing reads ----

  /** The step deletes a segment of the meeting with neither row nor answer, because reading its files fails. */
  predicate LosesRead(s: State, a: Action, m: nat) {
    a.Scan? && !a.readOk && a.head.meeting == m && Loses(s, a.head)
  }

  /** Some step of the run does. */
  predicate ReadLost(s: State, acts: seq<Action>, m: nat)
    decreases |acts|
  {
    acts != [] && Next(s, acts[0]).Some?
    && (LosesRead(s, acts[0], m) || ReadLost(Next(s, acts[0]).value, acts[1..], m))
  }

  function UnreadOf(s: State, m: nat): set<Seg> { set seg | seg in s.hist.unread && seg.meeting == m }

  lemma UnreadStep(s: State, a: Action, m: nat)
    requires Inv(s) && Next(s, a).Some?
    ensures UnreadOf(s, m) <= UnreadOf(Next(s, a).value, m)
    ensures LosesRead(s, a, m) <==> UnreadOf(Next(s, a).value, m) != UnreadOf(s, m)
  {
    UnreadChange(s, a);
    if LosesRead(s, a, m) {
      assert a.head in UnreadOf(Next(s, a).value, m) && a.head !in UnreadOf(s, m);
    }
  }

  lemma UnreadChange(s: State, a: Action)
    requires Directory(s) && CpuOk(s) && Next(s, a).Some?
    ensures Next(s, a).value.hist.unread ==
      s.hist.unread + if a.Scan? && !a.readOk && Loses(s, a.head) then {a.head} else {}
    ensures a.Scan? && Loses(s, a.head) ==> a.head !in s.hist.unread
  {
    StepFootprint(s, a);
    if a.Scan? {
      ScanUnread(s, a.d, a.head, a.readOk);
    }
  }

  lemma ScanUnread(s: State, d: nat, head: Seg, readOk: bool)
    requires Directory(s) && ScanStep(s, d, head, readOk).Some?
    ensures ScanStep(s, d, head, readOk).value.hist.unread ==
      s.hist.unread + if !readOk && Loses(s, head) then {head} else {}
    ensures Loses(s, head) ==> head !in s.hist.unread
  {
    if Readable(s.disk, head) && readOk {}
  }

  /** The history of unread segments tells exactly whether a read of the meeting was lost on the way. */
  lemma {:induction false} ReadLostExact(s: State, acts: seq<Action>, m: nat)
    requires Inv(s) && Run(s, acts).Some?
    ensures UnreadOf(s, m) <= UnreadOf(Run(s, acts).value, m)
    ensures ReadLost(s, acts, m) <==> UnreadOf(Run(s, acts).value, m) != UnreadOf(s, m)
    decreases |acts|
  {
    if acts != [] {
      UnreadStep(s, acts[0], m);
      StepKeeps(s, acts[0]);
      ReadLostExact(Next(s, acts[0]).value, acts[1..], m);
    }
  }

  lemma CompletedIsSettled(s: State, m: nat)
    requires Inv(s) && IsCompleted(s, m) && m !in s.hist.dirty
    ensures !HasPending(s, m)
    ensures AllSettled(s, m) <==> UnreadOf(s, m) == {}
  {
    if AllSettled(s, m) {
      assert forall seg :: seg in UnreadOf(s, m) ==> Settled(s, seg);
    }
    assert forall seg :: seg in s.hist.spilled && seg.meeting == m && !Settled(s, seg) ==> seg in UnreadOf(s, m);
  }

  /** Once marked without a store task that could spill, a meeting stays so and no segment of it is spilled. */
  lemma CleanStep(s: State, a: Action, m: nat)
    requires Inv(s) && Next(s, a).Some? && m in s.hist.left && m !in s.hist.dirty
    ensures var t := Next(s, a).value;
      && m in t.hist.left && m !in t.hist.dirty
      && forall seg: Seg :: seg.meeting == m ==> (seg in t.hist.spilled <==> seg in s.hist.spilled)
  {
    MarksOnlyGrow(s, a);
  }

  /** Only the last write of a spill adds a spilled segment; only the end of `/leave` marks. */
  lemma MarksOnlyGrow(s: State, a: Action)
    requires CpuOk(s) && Next(s, a).Some?
    ensures var t := Next(s, a).value;
      && s.hist.left <= t.hist.left
      && (a.LeaveMark? ==> a.meeting in s.mem.leaves && t.hist.dirty <= s.hist.dirty + {a.meeting})
      && (!a.LeaveMark? ==> t.hist.left == s.hist.left && t.hist.dirty == s.hist.dirty)
      && (t.hist.spilled == s.hist.spilled
          || (s.mem.cpu.Spilling? && t.hist.spilled == s.hist.spilled + {s.mem.cpu.seg}))
  {
    StepFootprint(s, a);
    if a.SpillNext? {
      if s.mem.cpu.stage == 2 {}
    }
  }

  lemma {:induction false} CleanRun(s: State, acts: seq<Action>, m: nat)
    requires Inv(s) && Run(s, acts).Some? && m in s.hist.left && m !in s.hist.dirty
    ensures var t := Run(s, acts).value;
      && Inv(t) && m in t.hist.left && m !in t.hist.dirty
      && forall seg: Seg :: seg.meeting == m ==> (seg in t.hist.spilled <==> seg in s.hist.spilled)
    decreases |acts|
  {
    if acts != [] {
      CleanStep(s, acts[0], m);
      StepKeeps(s, acts[0]);
      CleanRun(Next(s, acts[0]).value, acts[1..], m);
    }
  }

  /** Completion safety, over every run with crashes: for a meeting marked while no store task of it could spill, a
      `completed` row means that each of its spilled segments is settled, if and only if no read of one of them failed;
      and none of it is ever spilled later. */
  lemma CompletionSafety(acts: seq<Action>, more: seq<Action>, s: State, t: State, m: nat)
    requires Run(INIT, acts) == Some(s) && Run(s, more) == Some(t)
    requires IsCompleted(s, m) && m !in s.hist.dirty
    ensures AllSettled(s, m) <==> !ReadLost(INIT, acts, m)
    ensures !HasPending(s, m)
    ensures forall seg: Seg :: seg.meeting == m ==> (seg in t.hist.spilled <==> seg in s.hist.spilled)
  {
    CompletedReachable(s, m);
    ReadLostFromStart(acts, s, m);
    CleanReachable(s, more, t, m);
  }

  lemma CompletedReachable(s: State, m: nat)
    requires Reachable(s) && IsCompleted(s, m) && m !in s.hist.dirty
    ensures !HasPending(s, m) && m in s.hist.left
    ensures AllSettled(s, m) <==> UnreadOf(s, m) == {}
  {
    ReachableInv(s);
    CompletedIsSettled(s, m);
  }

  lemma ReadLostFromStart(acts: seq<Action>, s: State, m: nat)
    requires Run(INIT, acts) == Some(s)
    ensures ReadLost(INIT, acts, m) <==> UnreadOf(s, m) != {}
  {
    ReadLostExact(INIT, acts, m);
  }

  lemma CleanReachable(s: State, acts: seq<Action>, t: State, m: nat)
    requires Reachable(s) && Run(s, acts) == Some(t) && m in s.hist.left && m !in s.hist.dirty
    ensures m !in t.hist.dirty
    ensures forall seg: Seg :: seg.meeting == m ==> (seg in t.hist.spilled <==> seg in s.hist.spilled)
  {
    ReachableInv(s);
    CleanRun(s, acts, m);
  }

  // ---- the condition is exact ----

  lemma RunCons(s: State, a: Action, acts: seq<Action>)
    requires Next(s, a).Some?
    ensures Run(s, [a] + acts) == Run(Next(s, a).value, acts)
  {
    assert ([a] + acts)[1..] == acts;
  }

  lemma ReachableStep(s: State, a: Action)
    requires Reachable(s) && Next(s, a).Some?
    ensures Reachable(Next(s, a).value)
  {
    var acts: seq<Action> :| Run(INIT, acts) == Some(s);
    RunCons(s, a, []);
    RunAppend(INIT, acts, [a]);
    assert Run(INIT, acts + [a]) == Next(s, a);
  }

  lemma {:induction false} OldestExists(keys: set<Seg>, mtime: map<Seg, int>)
    requires keys != {} && keys <= mtime.Keys
    ensures exists h :: h in keys && forall x :: x in keys ==> mtime[h] <= mtime[x]
    decreases |keys|
  {
    var k :| k in keys;
    var rest := keys - {k};
    assert keys == rest + {k};
    if rest == {} {
      assert forall x :: x in keys ==> mtime[k] <= mtime[x];
    } else {
      OldestExists(rest, mtime);
      var h :| h in rest && forall x :: x in rest ==> mtime[h] <= mtime[x];
      var least := if mtime[k] < mtime[h] then k else h;
      assert least in keys && forall x :: x in keys ==> mtime[least] <= mtime[x];
    }
  }

  /** A drain task at the top of its loop with the event loop to itself. */
  ghost predicate AtTop(s: State, d: nat) {
    Reachable(s) && s.mem.cpu.Free? && d in s.mem.drainers && s.mem.drainers[d].Top?
  }

  lemma HeadExists(s: State)
    requires Reachable(s) && s.disk.json != map[]
    ensures exists head :: IsHead(s, head)
  {
    ReachableInv(s);
    assert s.disk.json.Keys != {};
    OldestExists(s.disk.json.Keys, s.hist.mtime);
    var h :| h in s.disk.json.Keys && forall x :: x in s.disk.json.Keys ==> s.hist.mtime[h] <= s.hist.mtime[x];
    assert IsHead(s, h);
  }

  /** Up to the unlinking of the head's `.wav`. */
  lemma PickHead(s: State, d: nat, head: Seg) returns (acts: seq<Action>, t: State)
    requires AtTop(s, d) && IsHead(s, head)
    ensures Run(s, acts) == Some(t) && Reachable(t)
    ensures t.mem.cpu.Deleting? && t.mem.cpu.d == d && t.mem.cpu.seg == head
    ensures t.disk.json == s.disk.json && t.disk.marks == s.disk.marks
    ensures t.db.meetings == s.db.meetings && t.mem.jobs == s.mem.jobs && t.hist.unread == s.hist.unread
  {
    var scan, silence := Scan(d, head, true), Answer(d, Some(""));
    ReachableStep(s, scan);
    var s1 := Next(s, scan).value;
    if Readable(s.disk, head) {
      ReachableStep(s1, silence);
      acts, t := [scan] + [silence], Next(s1, silence).value;
      RunCons(s1, silence, []);
      RunCons(s, scan, [silence]);
    } else {
      acts, t := [scan], s1;
      RunCons(s, scan, []);
    }
  }

  /** The worker answers the head with silence: one segment leaves the queue and nothing else changes. */
  lemma DrainHead(s: State, d: nat) returns (acts: seq<Action>, t: State)
    requires AtTop(s, d) && s.disk.json != map[]
    ensures Run(s, acts) == Some(t) && AtTop(t, d)
    ensures |t.disk.json.Keys| < |s.disk.json.Keys|
    ensures t.disk.marks == s.disk.marks && t.db.meetings == s.db.meetings && t.mem.jobs == s.mem.jobs
    ensures t.hist.unread == s.hist.unread
  {
    HeadExists(s);
    var head :| IsHead(s, head);
    var mid, s2 := PickHead(s, d, head);
    ReachableStep(s2, UnlinkJson);
    var s3 := Next(s2, UnlinkJson).value;
    ReachableStep(s3, DrainError(d));
    t := Next(s3, DrainError(d)).value;
    RunCons(s3, DrainError(d), []);
    RunCons(s2, UnlinkJson, [DrainError(d)]);
    acts := mid + ([UnlinkJson] + [DrainError(d)]);
    RunAppend(s, mid, [UnlinkJson] + [DrainError(d)]);
    assert t.disk.json.Keys == s.disk.json.Keys - {head};
  }

  lemma {:induction false} DrainQueue(s: State, d: nat) returns (acts: seq<Action>, t: State)
    requires AtTop(s, d)
    ensures Run(s, acts) == Some(t) && AtTop(t, d) && t.disk.json == map[]
    ensures t.disk.marks == s.disk.marks && t.db.meetings == s.db.meetings && t.mem.jobs == s.mem.jobs
    ensures t.hist.unread == s.hist.unread
    decreases |s.disk.json.Keys|
  {
    if s.disk.json == map[] {
      acts, t := [], s;
    } else {
      var acts1, s1 := DrainHead(s, d);
      var acts2, s2 := DrainQueue(s1, d);
      acts, t := acts1 + acts2, s2;
      RunAppend(s, acts1, acts2);
    }
  }

  lemma TodoIsMarked(s: State, d: nat, todo: seq<nat>)
    requires Reachable(s) && d in s.mem.drainers && s.mem.drainers[d] == Finalizing(todo, {}) && todo != []
    ensures todo[0] in s.disk.marks && todo[0] in s.db.meetings
  {
    ReachableInv(s);
  }

  /** One meeting of a finalization pass over an empty queue. */
  lemma FinalizeFirst(s: State, d: nat, todo: seq<nat>) returns (t: State)
    requires Reachable(s) && s.mem.cpu.Free? && d in s.mem.drainers
    requires s.mem.drainers[d] == Finalizing(todo, {}) && todo != []
    ensures Run(s, [FinalizeNext(d)] + [Unmark(d, false)]) == Some(t) && Reachable(t) && t.mem.cpu.Free?
    ensures d in t.mem.drainers && t.mem.drainers[d] == Finalizing(todo[1..], {})
    ensures t.disk == s.disk.(marks := s.disk.marks - {todo[0]}) && t.mem.jobs == s.mem.jobs
    ensures t.hist.unread == s.hist.unread
    ensures forall m :: IsCompleted(t, m) <==> IsCompleted(s, m) || m == todo[0]
  {
    TodoIsMarked(s, d, todo);
    ReachableStep(s, FinalizeNext(d));
    var mid := Next(s, FinalizeNext(d)).value;
    ReachableStep(mid, Unmark(d, false));
    t := Next(mid, Unmark(d, false)).value;
    RunCons(mid, Unmark(d, false), []);
    RunCons(s, FinalizeNext(d), [Unmark(d, false)]);
  }

  /** A finalization pass over an empty queue completes every meeting on its list and removes the markers. */
  lemma {:induction false} FinalizeAll(s: State, d: nat, todo: seq<nat>) returns (acts: seq<Action>, t: State)
    requires Reachable(s) && s.mem.cpu.Free? && d in s.mem.drainers && s.mem.drainers[d] == Finalizing(todo, {})
    ensures Run(s, acts) == Some(t) && AtTop(t, d)
    ensures t.disk.json == s.disk.json && t.mem.jobs == s.mem.jobs && t.hist.unread == s.hist.unread
    ensures forall m :: m in t.disk.marks <==> m in s.disk.marks && m !in todo
    ensures forall m :: IsCompleted(t, m) <==> IsCompleted(s, m) || m in todo
    decreases |todo|
  {
    if todo == [] {
      ReachableStep(s, FinalizeNext(d));
      acts, t := [FinalizeNext(d)], Next(s, FinalizeNext(d)).value;
      RunCons(s, FinalizeNext(d), []);
    } else {
      var s1 := FinalizeFirst(s, d, todo);
      var acts1, s2 := FinalizeAll(s1, d, todo[1..]);
      acts, t := [FinalizeNext(d)] + [Unmark(d, false)] + acts1, s2;
      RunAppend(s, [FinalizeNext(d)] + [Unmark(d, false)], acts1);
      assert forall m :: m in todo <==> m == todo[0] || m in todo[1..];
    }
  }

  /** From every state with the drain task alive and the event loop free, some schedule empties the queue, completes
      every marked meeting and removes the markers, while the store tasks in flight stay where they are. */
  lemma DrainPossible(s: State, d: nat) returns (acts: seq<Action>, t: State)
    requires Reachable(s) && s.mem.cpu.Free? && d in s.mem.drainers
    ensures Run(s, acts) == Some(t) && AtTop(t, d)
    ensures t.disk.json == map[] && t.disk.marks == {} && t.mem.jobs == s.mem.jobs && t.hist.unread == s.hist.unread
    ensures forall m :: m in s.disk.marks ==> IsCompleted(t, m)
  {
    ReachableStep(s, DrainError(d));
    var s1 := Next(s, DrainError(d)).value;
    var acts2, s2 := DrainQueue(s1, d);
    ReachableStep(s2, ScanEmpty(d));
    var s3 := Next(s2, ScanEmpty(d)).value;
    Names.FinalizingRoundTrip(s2.disk.marks);
    var todo := Names.FinalizingMeetings(Names.MarkerNames(s2.disk.marks));
    var acts3;
    if todo == [] {
      acts3, t := [], s3;
      assert s2.disk.marks == {};
    } else {
      assert PendingPrefixes(s2.disk.json) == {};
      acts3, t := FinalizeAll(s3, d, todo);
      assert t.disk.marks == {};
    }
    RunCons(s2, ScanEmpty(d), acts3);
    RunAppend(s1, acts2, [ScanEmpty(d)] + acts3);
    RunCons(s, DrainError(d), acts2 + ([ScanEmpty(d)] + acts3));
    acts := [DrainError(d)] + (acts2 + ([ScanEmpty(d)] + acts3));
  }

  /** The rest of a spill. */
  lemma {:induction false} FinishSpill(s: State) returns (acts: seq<Action>, t: State)
    requires Reachable(s) && s.mem.cpu.Spilling?
    ensures Run(s, acts) == Some(t) && Reachable(t) && t.mem.cpu.Free?
    ensures t.disk.marks == s.disk.marks && t.hist.unread == s.hist.unread
    ensures t.mem == s.mem.(cpu := Free, jobs := s.mem.jobs - {s.mem.cpu.seg})
    decreases 2 - s.mem.cpu.stage
  {
    SpillGoesOn(s);
    ReachableStep(s, SpillNext);
    var s1 := Next(s, SpillNext).value;
    if s1.mem.cpu.Free? {
      acts, t := [SpillNext], s1;
      RunCons(s, SpillNext, []);
    } else {
      var rest;
      rest, t := FinishSpill(s1);
      acts := [SpillNext] + rest;
      RunCons(s, SpillNext, rest);
    }
  }

  lemma SpillGoesOn(s: State)
    requires Reachable(s) && s.mem.cpu.Spilling?
    ensures Next(s, SpillNext).Some? && s.mem.cpu.stage <= 2
    ensures var t, seg := Next(s, SpillNext).value, s.mem.cpu.seg;
      && t.disk.marks == s.disk.marks && t.hist.unread == s.hist.unread
      && if s.mem.cpu.stage == 2 then t.mem == s.mem.(cpu := Free, jobs := s.mem.jobs - {seg})
         else t.mem == s.mem.(cpu := s.mem.cpu.(stage := s.mem.cpu.stage + 1))
  {
    SpillIsOn(s);
  }

  lemma SpillIsOn(s: State)
    requires Reachable(s) && s.mem.cpu.Spilling?
    ensures s.mem.cpu.seg in s.mem.jobs && s.mem.cpu.stage <= 2
  {
    ReachableInv(s);
  }

  /** Code without an await comes to its end. */
  lemma Unblock(s: State) returns (acts: seq<Action>, t: State)
    requires Reachable(s)
    ensures Run(s, acts) == Some(t) && Reachable(t) && t.mem.cpu.Free?
    ensures t.disk.marks == s.disk.marks && t.hist.unread == s.hist.unread
    ensures t.mem.jobs == s.mem.jobs - (if s.mem.cpu.Spilling? then {s.mem.cpu.seg} else {})
  {
    if s.mem.cpu.Spilling? {
      acts, t := FinishSpill(s);
    } else if s.mem.cpu.Deleting? {
      ReachableStep(s, UnlinkJson);
      acts, t := [UnlinkJson], Next(s, UnlinkJson).value;
      RunCons(s, UnlinkJson, []);
    } else {
      acts, t := [], s;
    }
  }

  /** A drain task is alive, or `ensure_drain_loop` starts one. */
  lemma Revive(s: State) returns (acts: seq<Action>, t: State, d: nat)
    requires Reachable(s) && s.mem.cpu.Free?
    ensures Run(s, acts) == Some(t) && Reachable(t) && t.mem.cpu.Free? && d in t.mem.drainers
    ensures t.disk == s.disk && t.hist == s.hist && t.mem.jobs == s.mem.jobs
  {
    if s.mem.handle.Some? && s.mem.handle.value in s.mem.drainers {
      acts, t, d := [], s, s.mem.handle.value;
    } else {
      NoDrainer(s);
      d := if s.mem.handle == Some(0) then 1 else 0;
      ReachableStep(s, EnsureDrain(d));
      acts, t := [EnsureDrain(d)], Next(s, EnsureDrain(d)).value;
      RunCons(s, EnsureDrain(d), []);
    }
  }

  lemma NoDrainer(s: State)
    requires Reachable(s) && !(s.mem.handle.Some? && s.mem.handle.value in s.mem.drainers)
    ensures s.mem.drainers == map[]
  {
    ReachableInv(s);
  }

  /** From every reachable state, also in the middle of a spill or a deletion and with the drain task dead, the queue
      can be emptied, every marked meeting completed and every marker removed, without loss of a store task in
      flight. */
  lemma AlwaysDrainable(s: State) returns (acts: seq<Action>, t: State)
    requires Reachable(s)
    ensures Run(s, acts) == Some(t) && t.disk.json == map[] && t.disk.marks == {}
    ensures forall m :: m in s.disk.marks ==> IsCompleted(t, m)
    ensures t.mem.jobs == s.mem.jobs - (if s.mem.cpu.Spilling? then {s.mem.cpu.seg} else {})
    ensures t.hist.unread == s.hist.unread
  {
    var acts1, s1 := Unblock(s);
    var acts2, s2, d := Revive(s1);
    var acts3;
    acts3, t := DrainPossible(s2, d);
    RunAppend(s1, acts2, acts3);
    RunAppend(s, acts1, acts2 + acts3);
    acts := acts1 + (acts2 + acts3);
  }

  /** In every continuation in which no read of the meeting fails, a `completed` row means that every spilled segment of
      the meeting is settled. */
  ghost predicate SafeForever(s: State, m: nat) {
    forall acts: seq<Action> ::
      Run(s, acts).Some? && IsCompleted(Run(s, acts).value, m) && !ReadLost(s, acts, m) ==>
        AllSettled(Run(s, acts).value, m)
  }

  lemma JobIsUnsettled(s: State, seg: Seg)
    requires Reachable(s) && s.mem.cpu.Free? && seg in s.mem.jobs
    ensures !Settled(s, seg)
  {
    ReachableInv(s);
    assert seg !in s.hist.mtime;
  }

  /** A store task that can spill spills, and the segment is not settled. */
  lemma LateSpill(s: State, seg: Seg) returns (acts: seq<Action>, t: State)
    requires Reachable(s) && s.mem.cpu.Free? && seg in LongJobs(s.mem.jobs, seg.meeting)
    ensures Run(s, acts) == Some(t) && seg in t.hist.spilled && !Settled(t, seg)
    ensures t.db == s.db && t.disk.marks == s.disk.marks && t.mem == s.mem.(jobs := s.mem.jobs - {seg})
    ensures t.disk.json == s.disk.json[seg := Whole(MetaOf(seg, s.mem.jobs[seg], ""))]
    ensures t.disk.wav == s.disk.wav[seg := Downmix(s.mem.jobs[seg].pcm)]
    ensures t.hist.unread == s.hist.unread && t.hist.left == s.hist.left && t.hist.dirty == s.hist.dirty
    ensures t.hist.mtime == s.hist.mtime[seg := 0]
  {
    JobIsUnsettled(s, seg);
    var open := SpillOpen(seg, "", 0);
    var s1 := Next(s, open).value;
    var s2 := Next(s1, SpillNext).value;
    var s3 := Next(s2, SpillNext).value;
    t := Next(s3, SpillNext).value;
    RunCons(s3, SpillNext, []);
    RunCons(s2, SpillNext, [SpillNext]);
    RunCons(s1, SpillNext, [SpillNext] + [SpillNext]);
    RunCons(s, open, [SpillNext] + ([SpillNext] + [SpillNext]));
    acts := [open] + ([SpillNext] + ([SpillNext] + [SpillNext]));
  }

  /** A task of the meeting still in flight can spill after the completion. */
  lemma MarkIsUnsafe(s: State, m: nat, seg: Seg)
    requires Reachable(s) && s.mem.cpu.Free? && m in s.disk.marks && seg in LongJobs(s.mem.jobs, m)
    requires s.mem.handle.Some? && s.mem.handle.value in s.mem.drainers
    ensures !SafeForever(s, m)
  {
    var acts1, s1 := DrainPossible(s, s.mem.handle.value);
    ReachableRun(s, acts1, s1);
    var acts2, s2 := LateSpill(s1, seg);
    RunAppend(s, acts1, acts2);
    assert Run(s, acts1 + acts2) == Some(s2);
    ReadLostReachable(s, acts1 + acts2, s2, m);
    assert IsCompleted(s2, m) && !AllSettled(s2, m);
  }

  lemma ReachableRun(s: State, acts: seq<Action>, t: State)
    requires Reachable(s) && Run(s, acts) == Some(t)
    ensures Reachable(t)
  {
    var before: seq<Action> :| Run(INIT, before) == Some(s);
    RunAppend(INIT, before, acts);
    assert Run(INIT, before + acts) == Some(t);
  }

  lemma UnreadIsUnsettled(s: State, seg: Seg)
    requires Reachable(s) && seg in s.hist.unread
    ensures seg in s.hist.spilled && !Settled(s, seg)
  {
    ReachableInv(s);
  }

  lemma ReadLostReachable(s: State, acts: seq<Action>, t: State, m: nat)
    requires Reachable(s) && Run(s, acts) == Some(t)
    ensures ReadLost(s, acts, m) <==> UnreadOf(t, m) != UnreadOf(s, m)
  {
    ReachableInv(s);
    ReadLostExact(s, acts, m);
  }

  /** A read of the meeting that failed before the mark cannot be made good. */
  lemma UnreadIsUnsafe(s: State, m: nat)
    requires Reachable(s) && s.mem.cpu.Free? && m in s.disk.marks && UnreadOf(s, m) != {}
    requires s.mem.handle.Some? && s.mem.handle.value in s.mem.drainers
    ensures !SafeForever(s, m)
  {
    var acts, t := DrainPossible(s, s.mem.handle.value);
    ReachableRun(s, acts, t);
    ReadLostReachable(s, acts, t, m);
    var seg :| seg in UnreadOf(s, m);
    UnreadIsUnsettled(t, seg);
    assert IsCompleted(t, m) && !AllSettled(t, m);
  }

  lemma CleanIsSafe(s: State, m: nat)
    requires Reachable(s) && m in s.hist.left && m !in s.hist.dirty && UnreadOf(s, m) == {}
    ensures SafeForever(s, m)
  {
    ReachableInv(s);
    forall acts: seq<Action> | Run(s, acts).Some? && IsCompleted(Run(s, acts).value, m) && !ReadLost(s, acts, m)
      ensures AllSettled(Run(s, acts).value, m)
    {
      CleanRun(s, acts, m);
      ReadLostExact(s, acts, m);
      CompletedIsSettled(Run(s, acts).value, m);
    }
  }

  lemma MarkIsClean(s: State, m: nat, d: nat)
    requires Reachable(s) && Next(s, LeaveMark(m, d)).Some? && LongJobs(s.mem.jobs, m) == {}
    ensures m in Next(s, LeaveMark(m, d)).value.hist.left && m !in Next(s, LeaveMark(m, d)).value.hist.dirty
  {
    CleanMark(s, m, d);
  }

  lemma CleanMark(s: State, m: nat, d: nat)
    requires Reachable(s) && m in s.mem.leaves && LeaveMarkStep(s, m, d).Some? && LongJobs(s.mem.jobs, m) == {}
    ensures m in LeaveMarkStep(s, m, d).value.hist.left && m !in LeaveMarkStep(s, m, d).value.hist.dirty
  {
    NotDirty(s, m);
  }

  lemma NotDirty(s: State, m: nat)
    requires Reachable(s) && m in s.mem.leaves
    ensures m !in s.hist.dirty
  {
    ReachableInv(s);
  }

  /** The conditions are exact: right after `/leave` marks a meeting, completion is safe in every continuation without a
      failing read of the meeting, if and only if no store task of it that is long enough to be spilled is in flight at
      the mark and no read of it failed before. */
  lemma MarkExact(s: State, m: nat, d: nat)
    requires Reachable(s) && Next(s, LeaveMark(m, d)).Some?
    ensures SafeForever(Next(s, LeaveMark(m, d)).value, m) <==>
      LongJobs(s.mem.jobs, m) == {} && UnreadOf(s, m) == {}
  {
    var a := LeaveMark(m, d);
    var t := Next(s, a).value;
    ReachableStep(s, a);
    if UnreadOf(s, m) != {} {
      assert UnreadOf(t, m) == UnreadOf(s, m);
      UnreadIsUnsafe(t, m);
    } else if LongJobs(s.mem.jobs, m) == {} {
      MarkIsClean(s, m, d);
      assert UnreadOf(t, m) == UnreadOf(s, m);
      CleanIsSafe(t, m);
    } else {
      var seg :| seg in LongJobs(s.mem.jobs, m);
      assert seg in LongJobs(t.mem.jobs, m);
      MarkIsUnsafe(t, m, seg);
    }
  }

  /** Each failing read of a spilled and unsettled head of a marked meeting does break the promise: the meeting can be
      completed without it. */
  lemma FailedReadBreaks(s: State, d: nat, head: Seg) returns (acts: seq<Action>, t: State)
    requires AtTop(s, d) && IsHead(s, head) && Loses(s, head) && head.meeting in s.disk.marks
    ensures Run(s, acts) == Some(t) && ReadLost(s, acts, head.meeting)
    ensures IsCompleted(t, head.meeting) && !AllSettled(t, head.meeting)
  {
    var scan := Scan(d, head, false);
    ReachableStep(s, scan);
    var s1 := Next(s, scan).value;
    ReachableStep(s1, UnlinkJson);
    var s2 := Next(s1, UnlinkJson).value;
    assert head in s2.hist.unread && d in s2.mem.drainers && s2.mem.cpu.Free? && s2.disk.marks == s.disk.marks;
    var rest;
    rest, t := DrainPossible(s2, d);
    ReachableRun(s2, rest, t);
    UnreadIsUnsettled(t, head);
    RunCons(s1, UnlinkJson, rest);
    RunCons(s, scan, [UnlinkJson] + rest);
    acts := [scan] + ([UnlinkJson] + rest);
  }
}
