/** Which parts of the state each action may change. */
module PipelineFrames {
  import opened Wrappers
  import opened Pipeline
  import Names

  /** An exception, or the end of the process. */
  predicate Fails(a: Action) { a.Crash? || a.SpillFail? || a.StoreFail? || a.LeaveAbort? }

  predicate OfLeave(a: Action) { a.LeavePop? || a.LeaveDisconnect? || a.LeaveMark? }

  ghost predicate DiskFrame(s: State, a: Action, t: State) {
    && (!a.SpillOpen? ==>
          && t.hist.order == s.hist.order && t.hist.mtime == s.hist.mtime && t.hist.named == s.hist.named
          && t.disk.json.Keys <= s.disk.json.Keys)
    && (!a.SpillOpen? && t.mem.cpu.Spilling? ==> s.mem.cpu.Spilling? && t.mem.cpu.seg == s.mem.cpu.seg)
    && (!a.LeaveMark? && !a.Unmark? ==> t.disk.marks == s.disk.marks)
    && (a.Unmark? ==> t.disk.marks <= s.disk.marks)
  }

  ghost predicate FateFrame(s: State, a: Action, t: State) {
    && (!a.Cut? && !a.LeaveCut? ==> t.hist.cuts == s.hist.cuts)
    && (!a.SpillNext? ==> t.hist.spilled == s.hist.spilled)
    && (!a.DropShort? ==> t.hist.short == s.hist.short)
    && (!Fails(a) ==> t.hist.lost == s.hist.lost)
    && (!a.Scan? ==> t.hist.unread == s.hist.unread)
    && (!a.Answer? ==> t.hist.silent == s.hist.silent)
    && (!a.InsertRow? ==> t.hist.inserted == s.hist.inserted && t.db.rows == s.db.rows)
  }

  ghost predicate CallFrame(s: State, a: Action, t: State) {
    && (!OfJoin(a) && !a.FinalizeNext? ==> t.db.meetings == s.db.meetings)
    && (!OfJoin(a) && !a.Crash? ==> t.mem.joins == s.mem.joins)
    && (!OfJoin(a) && !OfLeave(a) && !a.Crash? ==>
          t.mem.active == s.mem.active && t.mem.voice == s.mem.voice && t.mem.leaves.Keys <= s.mem.leaves.Keys
          && forall m :: m in t.mem.leaves ==> t.mem.leaves[m] == s.mem.leaves[m])
    && (!a.LeaveMark? ==> t.hist.left == s.hist.left && t.hist.dirty == s.hist.dirty)
    && (!a.Unmark? ==> t.hist.hooks == s.hist.hooks)
  }

  ghost predicate Footprint(s: State, a: Action, t: State) {
    DiskFrame(s, a, t) && FateFrame(s, a, t) && CallFrame(s, a, t)
  }

  /** Every action stays within its footprint. */
  lemma StepFootprint(s: State, a: Action)
    requires s.mem.cpu.Spilling? ==> s.mem.cpu.seg in s.disk.json
    requires Next(s, a).Some?
    ensures Footprint(s, a, Next(s, a).value)
  {
    if a.Crash? || a.SpillNext? || a.SpillFail? || a.UnlinkJson? || a.UnlinkFail? {
      BusyFootprint(s, a);
    } else if OfDrainer(a) {
      DrainFootprint(s, a);
    } else if OfJoin(a) {
      JoinFootprint(s, a);
    } else {
      StoreFootprint(s, a);
    }
  }

  lemma BusyFootprint(s: State, a: Action)
    requires s.mem.cpu.Spilling? ==> s.mem.cpu.seg in s.disk.json
    requires Next(s, a).Some? && (a.Crash? || a.SpillNext? || a.SpillFail? || a.UnlinkJson? || a.UnlinkFail?)
    ensures Footprint(s, a, Next(s, a).value)
  {
    if a.SpillNext? {
      SpillFootprint(s);
    }
  }

  lemma SpillFootprint(s: State)
    requires s.mem.cpu.Spilling? && s.mem.cpu.seg in s.disk.json && SpillStep(s).Some?
    ensures Footprint(s, SpillNext, SpillStep(s).value)
  {
    if s.mem.cpu.stage == 0 {} else if s.mem.cpu.stage == 1 {}
  }

  lemma DrainFootprint(s: State, a: Action)
    requires s.mem.cpu.Free? && DrainStep(s, a).Some?
    ensures Footprint(s, a, DrainStep(s, a).value)
  {
    if a.Scan? || a.Answer? {
      HeadFootprint(s, a);
    } else if a.FinalizeNext? || a.Unmark? {
      PassFootprint(s, a);
    }
  }

  lemma PassFootprint(s: State, a: Action)
    requires s.mem.cpu.Free? && DrainStep(s, a).Some? && (a.FinalizeNext? || a.Unmark?)
    ensures Footprint(s, a, DrainStep(s, a).value)
  {
    if a.FinalizeNext? {
      FinalizeFootprint(s, a.d);
    }
  }

  lemma FinalizeFootprint(s: State, d: nat)
    requires s.mem.cpu.Free? && FinalizeStep(s, d).Some?
    ensures Footprint(s, FinalizeNext(d), FinalizeStep(s, d).value)
  {
    var Finalizing(todo, prefixes) := s.mem.drainers[d];
    if todo == [] {} else if Names.Decimal(todo[0]) in prefixes {}
  }

  lemma HeadFootprint(s: State, a: Action)
    requires s.mem.cpu.Free? && DrainStep(s, a).Some? && (a.Scan? || a.Answer?)
    ensures Footprint(s, a, DrainStep(s, a).value)
  {
    if a.Scan? {
      if Readable(s.disk, a.head) && a.readOk {}
    } else {
      if a.reply.None? {} else if a.reply.value == "" {}
    }
  }

  lemma JoinFootprint(s: State, a: Action)
    requires s.mem.cpu.Free? && JoinStep(s, a).Some?
    ensures Footprint(s, a, JoinStep(s, a).value)
  {}

  lemma StoreFootprint(s: State, a: Action)
    requires s.mem.cpu.Free? && StoreStep(s, a).Some?
    ensures Footprint(s, a, StoreStep(s, a).value)
  {
    if OfLeave(a) {
      LeaveFootprint(s, a);
    }
  }

  lemma LeaveFootprint(s: State, a: Action)
    requires OfLeave(a) && StoreStep(s, a).Some?
    ensures Footprint(s, a, StoreStep(s, a).value)
  {}
}
