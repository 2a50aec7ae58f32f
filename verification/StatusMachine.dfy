/** The life of rows of `meetings`, and what the other invariants of the pipeline mean for a reader. */
module StatusMachine {
  import opened Wrappers
  import opened Pipeline
  import opened PipelineFrames
  import opened PipelineInvariant
  import CompletionSafety
  import Names

  function Rank(status: Status): nat {
    match status
    case Active => 0
    case Failed => 1
    case Completed => 2
  }

  lemma JoinMeetingIsOpen(s: State, j: nat)
    requires Inv(s) && j in s.mem.joins && Opened(s.mem.joins[j])
    ensures !IsCompleted(s, s.mem.joins[j].rec.meeting)
  {}

  /** No step removes a row, moves it to another channel, or lowers its status. */
  lemma StatusRises(s: State, a: Action, m: nat)
    requires Inv(s) && Next(s, a).Some? && m in s.db.meetings
    ensures var t := Next(s, a).value;
      && m in t.db.meetings && t.db.meetings[m].channel == s.db.meetings[m].channel
      && Rank(s.db.meetings[m].status) <= Rank(t.db.meetings[m].status)
  {
    if a.JoinDown? {
      JoinMeetingIsOpen(s, a.j);
    }
    MeetingsChange(s, a);
  }

  /** The four statements that write `meetings`. */
  ghost predicate Writes(s: State, a: Action, t: State) {
    || (t.db.meetings == s.db.meetings && !a.JoinRetire?)
    || (a.JoinRetire? && a.j in s.mem.joins && s.mem.joins[a.j].Connected?
          && t.db.meetings == Retire(s.db.meetings, s.mem.joins[a.j].channel))
    || (a.JoinInsert? && a.meeting !in s.db.meetings && a.j in s.mem.joins && s.mem.joins[a.j].Retired?
          && t.db.meetings == s.db.meetings[a.meeting := MeetingRow(s.mem.joins[a.j].channel, Active)])
    || (a.JoinDown? && a.j in s.mem.joins && s.mem.joins[a.j].Closing?
          && s.mem.joins[a.j].rec.meeting in s.db.meetings
          && t.db.meetings == s.db.meetings[s.mem.joins[a.j].rec.meeting :=
                                s.db.meetings[s.mem.joins[a.j].rec.meeting].(status := Failed)])
    || (a.FinalizeNext? && exists m :: t.db.meetings == Complete(s.db.meetings, m))
  }

  lemma MeetingsChange(s: State, a: Action)
    requires CpuOk(s) && Next(s, a).Some?
    ensures Writes(s, a, Next(s, a).value)
  {
    if OfJoin(a) {
      JoinWrites(s, a);
    } else if a.FinalizeNext? {
      PassWrites(s, a.d);
    } else {
      OthersKeepMeetings(s, a);
    }
  }

  lemma OthersKeepMeetings(s: State, a: Action)
    requires CpuOk(s) && Next(s, a).Some? && !OfJoin(a) && !a.FinalizeNext?
    ensures Next(s, a).value.db.meetings == s.db.meetings
  {
    StepFootprint(s, a);
  }

  lemma JoinWrites(s: State, a: Action)
    requires OfJoin(a) && JoinStep(s, a).Some?
    ensures Writes(s, a, JoinStep(s, a).value)
  {}

  lemma PassWrites(s: State, d: nat)
    requires FinalizeStep(s, d).Some?
    ensures Writes(s, FinalizeNext(d), FinalizeStep(s, d).value)
  {
    var Finalizing(todo, prefixes) := s.mem.drainers[d];
    if todo == [] {} else if Names.Decimal(todo[0]) in prefixes {}
  }

  /** A `/join` of the row's channel retires it, or the `/join` that made it gives up. */
  predicate Retires(s: State, a: Action, m: nat)
    requires m in s.db.meetings
  {
    || (a.JoinRetire? && a.j in s.mem.joins && s.mem.joins[a.j].Connected?
          && s.mem.joins[a.j].channel == s.db.meetings[m].channel)
    || (a.JoinDown? && a.j in s.mem.joins && s.mem.joins[a.j].Closing? && s.mem.joins[a.j].rec.meeting == m)
  }

  /** An active row fails exactly then. */
  lemma FailsExactly(s: State, a: Action, m: nat)
    requires Inv(s) && Next(s, a).Some? && m in s.db.meetings && s.db.meetings[m].status.Active?
    ensures m in Next(s, a).value.db.meetings
    ensures Next(s, a).value.db.meetings[m].status.Failed? <==> Retires(s, a, m)
  {
    MeetingsChange(s, a);
  }

  /** Some step of the run retires the row. */
  ghost predicate RetiredIn(s: State, acts: seq<Action>, m: nat)
    decreases |acts|
  {
    && acts != [] && m in s.db.meetings && Next(s, acts[0]).Some?
    && (Retires(s, acts[0], m) || RetiredIn(Next(s, acts[0]).value, acts[1..], m))
  }

  /** Over a run an active row fails only by a `/join` of its own channel, or by its own `/join` giving up: no other
      meeting is touched. */
  lemma {:induction false} FailedByJoin(s: State, acts: seq<Action>, m: nat)
    requires Inv(s) && Run(s, acts).Some? && m in s.db.meetings && s.db.meetings[m].status.Active?
    ensures var t := Run(s, acts).value;
      m in t.db.meetings && (t.db.meetings[m].status.Failed? ==> RetiredIn(s, acts, m))
    decreases |acts|
  {
    StatusRisesOverRun(s, acts, m);
    if acts != [] {
      var t := Next(s, acts[0]).value;
      FailsExactly(s, acts[0], m);
      StepKeeps(s, acts[0]);
      if t.db.meetings[m].status.Active? {
        FailedByJoin(t, acts[1..], m);
      } else if t.db.meetings[m].status.Completed? {
        StatusRisesOverRun(t, acts[1..], m);
      }
    }
  }

  /** Over a run, statuses only move up `active` < `failed` < `completed`, even if the channel is rejoined. */
  lemma {:induction false} StatusRisesOverRun(s: State, acts: seq<Action>, m: nat)
    requires Inv(s) && Run(s, acts).Some? && m in s.db.meetings
    ensures var t := Run(s, acts).value;
      && m in t.db.meetings && t.db.meetings[m].channel == s.db.meetings[m].channel
      && Rank(s.db.meetings[m].status) <= Rank(t.db.meetings[m].status)
    decreases |acts|
  {
    if acts != [] {
      StatusRises(s, acts[0], m);
      StepKeeps(s, acts[0]);
      StatusRisesOverRun(Next(s, acts[0]).value, acts[1..], m);
    }
  }

  /** Some action of a run is the mark of the meeting. */
  predicate Marks(acts: seq<Action>, m: nat) {
    exists i :: 0 <= i < |acts| && acts[i].LeaveMark? && acts[i].meeting == m
  }

  lemma MarksLater(acts: seq<Action>, m: nat)
    requires acts != [] && Marks(acts[1..], m)
    ensures Marks(acts, m)
  {
    var i :| 0 <= i < |acts[1..]| && acts[1..][i].LeaveMark? && acts[1..][i].meeting == m;
    assert acts[i + 1] == acts[1..][i];
  }

  lemma {:induction false} LeftWasMarked(s: State, acts: seq<Action>, m: nat)
    requires Reachable(s) && Run(s, acts).Some? && m in Run(s, acts).value.hist.left && m !in s.hist.left
    ensures Marks(acts, m)
    decreases |acts|
  {
    if acts != [] {
      var t := Next(s, acts[0]).value;
      CompletionSafety.ReachableStep(s, acts[0]);
      if m in t.hist.left {
        MarkAdds(s, acts[0], m);
      } else {
        LeftWasMarked(t, acts[1..], m);
        MarksLater(acts, m);
      }
    }
  }

  lemma MarkAdds(s: State, a: Action, m: nat)
    requires Reachable(s) && Next(s, a).Some? && m in Next(s, a).value.hist.left && m !in s.hist.left
    ensures a.LeaveMark? && a.meeting == m
    ensures m in Next(s, a).value.disk.marks
  {
    ReachableInv(s);
    MarkAddsHere(s, a, m);
  }

  lemma MarkAddsHere(s: State, a: Action, m: nat)
    requires CpuOk(s) && Next(s, a).Some? && m in Next(s, a).value.hist.left && m !in s.hist.left
    ensures a.LeaveMark? && a.meeting == m && m in Next(s, a).value.disk.marks
  {
    StepFootprint(s, a);
  }

  lemma CompletedIsLeft(s: State, m: nat)
    requires Reachable(s) && IsCompleted(s, m)
    ensures m in s.hist.left
  {
    ReachableInv(s);
  }

  /** Every `completed` row was marked by `/leave` earlier in the run. */
  lemma CompletedWasMarked(acts: seq<Action>, s: State, m: nat)
    requires Run(INIT, acts) == Some(s) && IsCompleted(s, m)
    ensures exists i :: 0 <= i < |acts| && acts[i].LeaveMark? && acts[i].meeting == m
  {
    assert Run(INIT, []) == Some(INIT);
    CompletedIsLeft(s, m);
    LeftWasMarked(INIT, acts, m);
  }

  // ---- no marked meeting is forgotten ----

  ghost predicate Remembered(s: State, m: nat) { m in s.disk.marks || IsCompleted(s, m) }

  /** Only the pass that completed a meeting takes its marker away. */
  lemma MarkerGoes(s: State, a: Action, m: nat)
    requires CpuOk(s) && Finalization(s) && Next(s, a).Some? && m in s.disk.marks
    requires m !in Next(s, a).value.disk.marks
    ensures IsCompleted(s, m)
  {
    StepFootprint(s, a);
    if a.Unmark? {
      assert m == s.mem.drainers[a.d].meeting;
    }
  }

  lemma RememberedStep(s: State, a: Action, m: nat)
    requires Reachable(s) && Next(s, a).Some? && m in Next(s, a).value.hist.left
    requires m in s.hist.left ==> Remembered(s, m)
    ensures Remembered(Next(s, a).value, m)
  {
    ReachableInv(s);
    if m !in s.hist.left {
      MarkAdds(s, a, m);
    } else if IsCompleted(s, m) {
      StatusRises(s, a, m);
    } else if m !in Next(s, a).value.disk.marks {
      MarkerGoes(s, a, m);
    }
  }

  lemma {:induction false} RememberedRun(s: State, acts: seq<Action>, m: nat)
    requires Reachable(s) && Run(s, acts).Some? && m in Run(s, acts).value.hist.left
    requires m in s.hist.left ==> Remembered(s, m)
    ensures Remembered(Run(s, acts).value, m)
    decreases |acts|
  {
    if acts != [] {
      var t := Next(s, acts[0]).value;
      CompletionSafety.ReachableStep(s, acts[0]);
      if m in t.hist.left {
        RememberedStep(s, acts[0], m);
      }
      RememberedRun(t, acts[1..], m);
    }
  }

  /** A meeting that `/leave` marked is never forgotten, whatever crashes or fails: it has its marker until its row is
      `completed`. */
  lemma MarkedOrCompleted(acts: seq<Action>, s: State, m: nat)
    requires Run(INIT, acts) == Some(s)
    ensures m in s.hist.left <==> m in s.disk.marks || IsCompleted(s, m)
  {
    assert Run(INIT, []) == Some(INIT);
    if m in s.hist.left {
      RememberedRun(INIT, acts, m);
    }
    MarksAreLeft(s);
  }

  lemma MarksAreLeft(s: State)
    requires Reachable(s)
    ensures forall m :: m in s.disk.marks || IsCompleted(s, m) ==> m in s.hist.left
  {
    ReachableInv(s);
  }

  // ---- whose recording a segment belongs to ----

  /** A recording that is starting, going on or being left, or that a segment was cut in. */
  ghost predicate Knows(s: State, rec: Recording) {
    || (exists j :: j in s.mem.joins && Opened(s.mem.joins[j]) && s.mem.joins[j].rec == rec)
    || (exists g :: g in s.mem.active && s.mem.active[g] == rec)
    || (exists m :: m in s.mem.leaves && s.mem.leaves[m].rec == rec)
    || (exists seg :: seg in s.hist.cuts && s.hist.cuts[seg].rec == rec)
  }

  predicate Opens(a: Action, rec: Recording) {
    a.JoinInsert? && a.meeting == rec.meeting && a.session == rec.session && a.base == rec.base
  }

  lemma KnowsStep(s: State, a: Action, rec: Recording)
    requires CpuOk(s) && Next(s, a).Some? && Knows(Next(s, a).value, rec)
    ensures Knows(s, rec) || Opens(a, rec)
  {
    Dispatched(s, a);
    if OfJoin(a) {
      KnowsJoin(s, a, rec);
    } else if OfLeave(a) || a.Cut? || a.LeaveCut? {
      KnowsStore(s, a, rec);
    } else {
      KnowsElse(s, a, rec);
    }
  }

  lemma Dispatched(s: State, a: Action)
    requires Next(s, a).Some?
    ensures OfJoin(a) ==> Next(s, a) == JoinStep(s, a)
    ensures OfLeave(a) || a.Cut? || a.LeaveCut? ==> Next(s, a) == StoreStep(s, a)
  {}

  lemma KnowsJoin(s: State, a: Action, rec: Recording)
    requires OfJoin(a) && JoinStep(s, a).Some? && Knows(JoinStep(s, a).value, rec)
    ensures Knows(s, rec) || Opens(a, rec)
  {
    var t := JoinStep(s, a).value;
    if exists j :: j in t.mem.joins && Opened(t.mem.joins[j]) && t.mem.joins[j].rec == rec {
      var j :| j in t.mem.joins && Opened(t.mem.joins[j]) && t.mem.joins[j].rec == rec;
      assert j in s.mem.joins && Opened(s.mem.joins[j]) ==> s.mem.joins[j].rec == rec || Opens(a, rec);
    }
  }

  lemma KnowsStore(s: State, a: Action, rec: Recording)
    requires (OfLeave(a) || a.Cut? || a.LeaveCut?) && StoreStep(s, a).Some? && Knows(StoreStep(s, a).value, rec)
    ensures Knows(s, rec)
  {}

  lemma KnowsElse(s: State, a: Action, rec: Recording)
    requires CpuOk(s) && Next(s, a).Some? && Knows(Next(s, a).value, rec)
    requires !OfJoin(a) && !OfLeave(a) && !a.Cut? && !a.LeaveCut?
    ensures Knows(s, rec)
  {
    StepFootprint(s, a);
    if a.Crash? {
      assert Next(s, a).value.mem == EMPTY_MEM;
    }
  }

  lemma {:induction false} KnowsRun(s: State, acts: seq<Action>, rec: Recording)
    requires Inv(s) && Run(s, acts).Some? && Knows(Run(s, acts).value, rec)
    ensures Knows(s, rec) || exists k :: 0 <= k < |acts| && Opens(acts[k], rec)
    decreases |acts|
  {
    if acts != [] {
      StepKeeps(s, acts[0]);
      KnowsRun(Next(s, acts[0]).value, acts[1..], rec);
      if Knows(Next(s, acts[0]).value, rec) {
        KnowsStep(s, acts[0], rec);
      } else {
        var k :| 0 <= k < |acts[1..]| && Opens(acts[1..][k], rec);
        assert acts[k + 1] == acts[1..][k];
      }
    }
  }

  ghost predicate Own(s: State) { forall seg :: seg in s.hist.cuts ==> s.hist.cuts[seg].rec.meeting == seg.meeting }

  lemma OwnStep(s: State, a: Action)
    requires CpuOk(s) && Lifecycle(s) && Own(s) && Next(s, a).Some?
    ensures Own(Next(s, a).value)
  {
    if a.Cut? || a.LeaveCut? {
      OwnCut(s, a);
    } else {
      CutsKept(s, a);
    }
  }

  lemma OwnCut(s: State, a: Action)
    requires Lifecycle(s) && Own(s) && (a.Cut? || a.LeaveCut?) && StoreStep(s, a).Some?
    ensures Own(StoreStep(s, a).value)
  {}

  lemma CutsKept(s: State, a: Action)
    requires CpuOk(s) && Next(s, a).Some? && !a.Cut? && !a.LeaveCut?
    ensures Next(s, a).value.hist.cuts == s.hist.cuts
  {
    StepFootprint(s, a);
  }

  lemma {:induction false} OwnRun(s: State, acts: seq<Action>)
    requires Inv(s) && Own(s) && Run(s, acts).Some?
    ensures Own(Run(s, acts).value)
    decreases |acts|
  {
    if acts != [] {
      StepKeeps(s, acts[0]);
      OwnStep(s, acts[0]);
      OwnRun(Next(s, acts[0]).value, acts[1..]);
    }
  }

  /** Every segment belongs to a recording that a `/join` opened earlier in the run, with the session and the start that
      it was opened with. */
  lemma SegmentsAreOpened(acts: seq<Action>, s: State, seg: Seg)
    requires Run(INIT, acts) == Some(s) && seg in s.hist.cuts
    ensures s.hist.cuts[seg].rec.meeting == seg.meeting
    ensures exists k :: 0 <= k < |acts| && Opens(acts[k], s.hist.cuts[seg].rec)
  {
    NothingKnown();
    OwnRun(INIT, acts);
    KnowsRun(INIT, acts, s.hist.cuts[seg].rec);
  }

  lemma NothingKnown()
    ensures Inv(INIT) && Own(INIT) && forall rec :: !Knows(INIT, rec)
  {}

  // ---- one voice client per guild ----

  /** Who has a guild's voice client: a `/join` until it gives up, a recording, or a `/leave` until it disconnects. */
  datatype Holder = ByJoin(j: nat) | ByCall(g: Guild) | ByLeave(m: nat)

  function GuildOf(join: Join): Guild {
    match join
    case Connected(ch) => ch.guild
    case Retired(ch) => ch.guild
    case Inserted(rec) => rec.channel.guild
    case Closing(rec) => rec.channel.guild
  }

  predicate Holds(mem: Mem, h: Holder, g: Guild) {
    match h
    case ByJoin(j) => j in mem.joins && !mem.joins[j].Closing? && GuildOf(mem.joins[j]) == g
    case ByCall(k) => k == g && g in mem.active
    case ByLeave(m) => m in mem.leaves && mem.leaves[m].connected && mem.leaves[m].rec.channel.guild == g
  }

  ghost predicate RegistryOk(mem: Mem) {
    && (forall h, g :: Holds(mem, h, g) ==> g in mem.voice)
    && (forall h, k, g :: Holds(mem, h, g) && Holds(mem, k, g) ==> h == k)
    && (forall g :: g in mem.active ==> mem.active[g].channel.guild == g)
  }

  lemma RegistryShrinks(mem: Mem, after: Mem)
    requires RegistryOk(mem) && after.voice == mem.voice && after.active == mem.active
    requires forall h, g :: Holds(after, h, g) ==> Holds(mem, h, g)
    ensures RegistryOk(after)
  {}

  /** The voice client of one guild goes from one holder to another, or to none. */
  lemma RegistryChange(mem: Mem, after: Mem, before: Holder, holder: Holder, guild: Guild)
    requires RegistryOk(mem) && mem.voice - {guild} <= after.voice
    requires Holds(mem, before, guild) || guild !in mem.voice
    requires before != holder ==> !Holds(after, before, guild)
    requires Holds(after, holder, guild) ==> guild in after.voice
    requires forall h, g :: Holds(after, h, g) ==> Holds(mem, h, g) || (h == holder && g == guild)
    requires forall g :: g in after.active ==> after.active[g].channel.guild == g
    ensures RegistryOk(after)
  {
    forall h | Holds(after, h, guild)
      ensures h == holder
    {
      assert Holds(mem, h, guild) || h == holder;
    }
    forall h, g | Holds(after, h, g) && g != guild
      ensures Holds(mem, h, g)
    {}
  }

  lemma RegistryStep(s: State, a: Action)
    requires CpuOk(s) && RegistryOk(s.mem) && Next(s, a).Some?
    ensures RegistryOk(Next(s, a).value.mem)
  {
    if OfJoin(a) {
      RegistryJoin(s, a);
    } else if OfLeave(a) {
      RegistryLeave(s, a);
    } else {
      RegistryElse(s, a);
    }
  }

  lemma RegistryElse(s: State, a: Action)
    requires CpuOk(s) && RegistryOk(s.mem) && Next(s, a).Some? && !OfJoin(a) && !OfLeave(a)
    ensures RegistryOk(Next(s, a).value.mem)
  {
    var after := Next(s, a).value.mem;
    if a.Crash? {
      assert after == EMPTY_MEM;
    } else {
      CallsKept(s, a);
      assert forall h, g :: Holds(after, h, g) ==> Holds(s.mem, h, g);
      RegistryShrinks(s.mem, after);
    }
  }

  lemma CallsKept(s: State, a: Action)
    requires CpuOk(s) && Next(s, a).Some? && !OfJoin(a) && !OfLeave(a) && !a.Crash?
    ensures var mem, after := s.mem, Next(s, a).value.mem;
      && after.joins == mem.joins && after.active == mem.active && after.voice == mem.voice
      && forall m :: m in after.leaves ==> m in mem.leaves && after.leaves[m] == mem.leaves[m]
  {
    StepFootprint(s, a);
  }

  lemma RegistryLeave(s: State, a: Action)
    requires RegistryOk(s.mem) && OfLeave(a) && StoreStep(s, a).Some?
    ensures RegistryOk(StoreStep(s, a).value.mem)
  {
    var mem, after := s.mem, StoreStep(s, a).value.mem;
    if a.LeavePop? {
      assert Holds(mem, ByCall(a.guild), a.guild);
      RegistryChange(mem, after, ByCall(a.guild), ByLeave(mem.active[a.guild].meeting), a.guild);
    } else if a.LeaveDisconnect? {
      var g := mem.leaves[a.meeting].rec.channel.guild;
      assert Holds(mem, ByLeave(a.meeting), g);
      RegistryChange(mem, after, ByLeave(a.meeting), ByLeave(a.meeting), g);
    } else {
      assert forall h, g :: Holds(after, h, g) ==> Holds(mem, h, g);
      RegistryShrinks(mem, after);
    }
  }

  lemma RegistryJoin(s: State, a: Action)
    requires RegistryOk(s.mem) && JoinStep(s, a).Some?
    ensures RegistryOk(JoinStep(s, a).value.mem)
  {
    var mem, after := s.mem, JoinStep(s, a).value.mem;
    if a.JoinConnect? {
      RegistryChange(mem, after, ByJoin(a.j), ByJoin(a.j), a.channel.guild);
    } else if a.JoinUp? || a.JoinRefuse? || a.JoinClose? {
      var g := GuildOf(mem.joins[a.j]);
      assert Holds(mem, ByJoin(a.j), g);
      RegistryChange(mem, after, ByJoin(a.j), if a.JoinUp? then ByCall(g) else ByJoin(a.j), g);
    } else {
      assert forall h, g :: Holds(after, h, g) ==> Holds(mem, h, g);
      RegistryShrinks(mem, after);
    }
  }

  // ---- no voice client leaks ----

  /** Each registered voice client has someone who will give it up. */
  ghost predicate AllHeld(mem: Mem) { forall g :: g in mem.voice ==> exists h :: Holds(mem, h, g) }

  /** A `/join` or `/leave` ends in an exception. */
  predicate Abandons(a: Action) { a.JoinAbort? || a.LeaveAbort? || a.StoreFail? || a.SpillFail? }

  /** Whoever held a voice client that stays registered is followed by someone who does. */
  lemma HeldOn(s: State, a: Action, h: Holder, g: Guild)
    requires CpuOk(s) && Lifecycle(s) && RegistryOk(s.mem) && Next(s, a).Some? && !Abandons(a) && !a.Crash?
    requires Holds(s.mem, h, g) && g in Next(s, a).value.mem.voice
    ensures exists k :: Holds(Next(s, a).value.mem, k, g)
  {
    Dispatched(s, a);
    if OfJoin(a) {
      JoinHeldOn(s, a, h, g);
    } else if OfLeave(a) {
      LeaveHeldOn(s, a, h, g);
    } else {
      LeavesKept(s, a);
      SameHolders(s.mem, Next(s, a).value.mem, h, g);
    }
  }

  lemma SameHolders(mem: Mem, after: Mem, h: Holder, g: Guild)
    requires Holds(mem, h, g)
    requires after.joins == mem.joins && after.active == mem.active && after.leaves == mem.leaves
    ensures Holds(after, h, g)
  {}

  lemma AllHeldStep(s: State, a: Action)
    requires CpuOk(s) && Lifecycle(s) && RegistryOk(s.mem) && AllHeld(s.mem) && Next(s, a).Some? && !Abandons(a)
    ensures AllHeld(Next(s, a).value.mem)
  {
    if a.Crash? {
      assert Next(s, a).value.mem == EMPTY_MEM;
    } else {
      forall g | g in Next(s, a).value.mem.voice
        ensures exists k :: Holds(Next(s, a).value.mem, k, g)
      {
        if g in s.mem.voice {
          var h :| Holds(s.mem, h, g);
          HeldOn(s, a, h, g);
        } else {
          NewlyHeld(s, a, g);
        }
      }
    }
  }

  lemma NewlyHeld(s: State, a: Action, g: Guild)
    requires CpuOk(s) && Next(s, a).Some? && !a.Crash? && g !in s.mem.voice && g in Next(s, a).value.mem.voice
    ensures exists k :: Holds(Next(s, a).value.mem, k, g)
  {
    Dispatched(s, a);
    if OfJoin(a) {
      NewlyJoined(s, a, g);
    } else if OfLeave(a) {
      NoneJoined(s, a);
    } else {
      CallsKept(s, a);
    }
  }

  lemma NewlyJoined(s: State, a: Action, g: Guild)
    requires OfJoin(a) && JoinStep(s, a).Some? && g !in s.mem.voice && g in JoinStep(s, a).value.mem.voice
    ensures exists k :: Holds(JoinStep(s, a).value.mem, k, g)
  {
    assert a.JoinConnect? && Holds(JoinStep(s, a).value.mem, ByJoin(a.j), g);
  }

  lemma NoneJoined(s: State, a: Action)
    requires OfLeave(a) && StoreStep(s, a).Some?
    ensures StoreStep(s, a).value.mem.voice <= s.mem.voice
  {}

  lemma {:induction false} AllHeldRun(s: State, acts: seq<Action>)
    requires Inv(s) && RegistryOk(s.mem) && AllHeld(s.mem) && Run(s, acts).Some?
    requires forall k :: 0 <= k < |acts| ==> !Abandons(acts[k])
    ensures AllHeld(Run(s, acts).value.mem)
    decreases |acts|
  {
    if acts != [] {
      StepKeeps(s, acts[0]);
      RegistryStep(s, acts[0]);
      AllHeldStep(s, acts[0]);
      AllHeldRun(Next(s, acts[0]).value, acts[1..]);
    }
  }

  /** No voice client leaks: unless a `/join` or `/leave` ended in an exception, a guild's voice client is registered
      exactly while some join, recording or leave has it, crashes included. */
  lemma VoiceIsHeld(acts: seq<Action>, s: State, g: Guild)
    requires Run(INIT, acts) == Some(s) && forall k :: 0 <= k < |acts| ==> !Abandons(acts[k])
    ensures g in s.mem.voice <==> exists h :: Holds(s.mem, h, g)
  {
    InitOk(Channel(g, 0));
    AllHeldRun(INIT, acts);
    ChannelFromStart(acts, s, Channel(g, 0));
  }

  lemma LeavesKept(s: State, a: Action)
    requires CpuOk(s) && Next(s, a).Some? && !OfJoin(a) && !OfLeave(a) && !Abandons(a) && !a.Crash?
    ensures var mem, after := s.mem, Next(s, a).value.mem;
      after.joins == mem.joins && after.active == mem.active && after.leaves == mem.leaves
  {
    CallsKept(s, a);
    if OfDrainer(a) {
      DrainKeepsLeaves(s, a);
    }
  }

  lemma DrainKeepsLeaves(s: State, a: Action)
    requires OfDrainer(a) && DrainStep(s, a).Some?
    ensures DrainStep(s, a).value.mem.leaves == s.mem.leaves
  {
    if a.Scan? {
      if Readable(s.disk, a.head) && a.readOk {}
    } else if a.Answer? {
      if a.reply.None? {} else if a.reply.value == "" {}
    }
  }

  lemma LeaveHeldOn(s: State, a: Action, h: Holder, g: Guild)
    requires OfLeave(a) && StoreStep(s, a).Some? && RegistryOk(s.mem) && Lifecycle(s)
    requires Holds(s.mem, h, g) && g in StoreStep(s, a).value.mem.voice
    ensures exists k :: Holds(StoreStep(s, a).value.mem, k, g)
  {
    var t := StoreStep(s, a).value.mem;
    if a.LeavePop? && h == ByCall(a.guild) {
      assert Holds(t, ByLeave(s.mem.active[a.guild].meeting), g);
    } else if !a.LeaveDisconnect? || h != ByLeave(a.meeting) {
      assert Holds(t, h, g);
    }
  }

  lemma JoinHeldOn(s: State, a: Action, h: Holder, g: Guild)
    requires OfJoin(a) && !a.JoinAbort? && JoinStep(s, a).Some?
    requires Holds(s.mem, h, g) && g in JoinStep(s, a).value.mem.voice
    ensures exists k :: Holds(JoinStep(s, a).value.mem, k, g)
  {
    var t := JoinStep(s, a).value.mem;
    if a.JoinUp? && h == ByJoin(a.j) {
      assert Holds(t, ByCall(g), g);
    } else {
      assert Holds(t, h, g);
    }
  }

  // ---- one non-terminal row per channel ----

  predicate RetiredFor(mem: Mem, j: nat, channel: Channel) {
    j in mem.joins && mem.joins[j].Retired? && mem.joins[j].channel == channel
  }

  predicate IsOpen(s: State, m: nat, ch: Channel) {
    m in s.db.meetings && s.db.meetings[m] == MeetingRow(ch, Active)
  }

  /** At most one open row, and none while a join of the channel is between its UPDATE and its INSERT. */
  ghost predicate ChannelOk(s: State, ch: Channel) {
    && (forall m, n :: IsOpen(s, m, ch) && IsOpen(s, n, ch) ==> m == n)
    && (forall j, m :: RetiredFor(s.mem, j, ch) ==> !IsOpen(s, m, ch))
  }

  /** A step opens a row of the channel only for a join that retired the others, which was the only such join. */
  ghost predicate OpensFor(s: State, a: Action, t: State, ch: Channel) {
    if a.JoinInsert? && RetiredFor(s.mem, a.j, ch) then
      && (forall m :: IsOpen(t, m, ch) ==> IsOpen(s, m, ch) || m == a.meeting)
      && (forall j :: !RetiredFor(t.mem, j, ch))
    else
      && (forall m :: IsOpen(t, m, ch) ==> IsOpen(s, m, ch))
      && ((forall m :: !IsOpen(t, m, ch)) || (forall j :: RetiredFor(t.mem, j, ch) ==> RetiredFor(s.mem, j, ch)))
  }

  lemma OpenRows(s: State, a: Action, ch: Channel)
    requires CpuOk(s) && RegistryOk(s.mem) && Next(s, a).Some?
    ensures OpensFor(s, a, Next(s, a).value, ch)
  {
    if OfJoin(a) {
      JoinOpens(s, a, ch);
    } else {
      ElseOpens(s, a, ch);
    }
  }

  lemma ElseOpens(s: State, a: Action, ch: Channel)
    requires CpuOk(s) && Next(s, a).Some? && !OfJoin(a)
    ensures OpensFor(s, a, Next(s, a).value, ch)
  {
    StepFootprint(s, a);
    if a.FinalizeNext? {
      PassWrites(s, a.d);
    }
  }

  lemma JoinOpens(s: State, a: Action, ch: Channel)
    requires RegistryOk(s.mem) && JoinStep(s, a).Some?
    ensures OpensFor(s, a, JoinStep(s, a).value, ch)
  {
    if a.JoinInsert? && RetiredFor(s.mem, a.j, ch) {
      forall j ensures !RetiredFor(JoinStep(s, a).value.mem, j, ch) {
        if RetiredFor(s.mem, j, ch) {
          assert Holds(s.mem, ByJoin(j), ch.guild) && Holds(s.mem, ByJoin(a.j), ch.guild);
        }
      }
    }
  }

  lemma ChannelStep(s: State, a: Action, ch: Channel)
    requires CpuOk(s) && RegistryOk(s.mem) && ChannelOk(s, ch) && Next(s, a).Some?
    ensures ChannelOk(Next(s, a).value, ch)
  {
    OpenRows(s, a, ch);
  }

  lemma {:induction false} ChannelRun(s: State, acts: seq<Action>, ch: Channel)
    requires Inv(s) && RegistryOk(s.mem) && ChannelOk(s, ch) && Run(s, acts).Some?
    ensures RegistryOk(Run(s, acts).value.mem) && ChannelOk(Run(s, acts).value, ch)
    decreases |acts|
  {
    if acts != [] {
      StepKeeps(s, acts[0]);
      RegistryStep(s, acts[0]);
      ChannelStep(s, acts[0], ch);
      ChannelRun(Next(s, acts[0]).value, acts[1..], ch);
    }
  }

  lemma ChannelFromStart(acts: seq<Action>, s: State, ch: Channel)
    requires Run(INIT, acts) == Some(s)
    ensures RegistryOk(s.mem) && ChannelOk(s, ch)
  {
    InitOk(ch);
    ChannelRun(INIT, acts, ch);
  }

  lemma InitOk(ch: Channel)
    ensures Inv(INIT) && RegistryOk(INIT.mem) && ChannelOk(INIT, ch)
  {}

  /** A channel has at most one non-terminal row, in every reachable state. */
  lemma OneOpenRow(acts: seq<Action>, s: State, ch: Channel, m: nat, n: nat)
    requires Run(INIT, acts) == Some(s)
    ensures IsOpen(s, m, ch) && IsOpen(s, n, ch) ==> m == n
  {
    ChannelFromStart(acts, s, ch);
  }

  /** What that rests on: at most one join, recording or leave has the voice client of a guild. In particular two joins
      of a channel are never both between retire and insert. */
  lemma OneHolder(acts: seq<Action>, s: State, g: Guild, h: Holder, k: Holder)
    requires Run(INIT, acts) == Some(s)
    ensures Holds(s.mem, h, g) && Holds(s.mem, k, g) ==> h == k && g in s.mem.voice
  {
    ChannelFromStart(acts, s, Channel(g, 0));
  }

  // ---- restart ----

  /** A crash loses the store tasks in flight and nothing else that lasts; after it, any guild can be joined and a drain
      task started. */
  lemma AfterCrash(s: State)
    ensures Next(s, Crash).Some?
    ensures var t := Next(s, Crash).value;
      && t.disk == s.disk && t.db == s.db
      && (forall j, ch :: Next(t, JoinConnect(j, ch)).Some?) && (forall d :: Next(t, EnsureDrain(d)).Some?)
      && t.mem.jobs == map[] && t.hist.lost == s.hist.lost + s.mem.jobs.Keys
  {}

  // ---- readings of the invariant ----

  /** At most one drain task is alive, so at most one transcription or finalization pass is in progress. */
  lemma OneDrainer(s: State, d: nat, e: nat)
    requires Reachable(s) && d in s.mem.drainers && e in s.mem.drainers
    ensures d == e && s.mem.handle == Some(d)
  {
    ReachableInv(s);
  }

  /** The directory in every reachable state: no `.wav` without its `.json`; a `.json` without `.wav` is a torn spill or
      belongs to a segment that is settled or could not be read; and a spilled segment that is not settled has both its
      files, complete, if and only if no read of it failed. */
  lemma DirectoryShape(s: State, seg: Seg)
    requires Reachable(s)
    ensures seg in s.disk.wav ==> seg in s.disk.json
    ensures seg in s.disk.json && seg !in s.disk.wav ==>
      Settled(s, seg) || seg in s.hist.unread || seg in s.hist.lost || (s.mem.cpu.Spilling? && s.mem.cpu.seg == seg)
    ensures seg in s.hist.spilled && !Settled(s, seg) ==>
      (seg !in s.hist.unread <==> Readable(s.disk, seg))
    ensures seg in s.hist.spilled && !Settled(s, seg) && seg !in s.hist.unread ==>
      seg in s.disk.wav && seg in s.hist.cuts && s.disk.wav[seg] == Downmix(s.hist.cuts[seg].pcm)
  {
    ReachableInv(s);
  }

  /** Every segment ever cut has exactly one fate; what is kept is 0.4 seconds or more of 16-bit stereo at 48 kHz. */
  lemma OneFate(s: State, seg: Seg)
    requires Reachable(s) && seg in s.hist.cuts
    ensures seg in s.mem.jobs.Keys + s.hist.short + s.hist.spilled + s.hist.lost
    ensures !(seg in s.mem.jobs && seg in s.hist.short) && !(seg in s.mem.jobs && seg in s.hist.spilled)
    ensures !(seg in s.mem.jobs && seg in s.hist.lost) && !(seg in s.hist.short && seg in s.hist.spilled)
    ensures !(seg in s.hist.short && seg in s.hist.lost) && !(seg in s.hist.spilled && seg in s.hist.lost)
    ensures seg in s.hist.short ==> |s.hist.cuts[seg].pcm| < 76_800
    ensures seg in s.hist.spilled ==> |s.hist.cuts[seg].pcm| >= 76_800
  {
    ReachableInv(s);
  }

  /** No crash, failed store or abandoned `/leave`. */
  predicate Smooth(acts: seq<Action>) { forall k :: 0 <= k < |acts| ==> !Fails(acts[k]) }

  lemma StepLost(s: State, a: Action)
    requires CpuOk(s) && Next(s, a).Some? && !Fails(a)
    ensures Next(s, a).value.hist.lost == s.hist.lost
  {
    StepFootprint(s, a);
  }

  /** Over a run, only a crash, a failed store or an abandoned `/leave` loses audio that was cut. */
  lemma {:induction false} LossNeedsFailure(s: State, acts: seq<Action>)
    requires Inv(s) && Run(s, acts).Some? && Smooth(acts)
    ensures Run(s, acts).value.hist.lost == s.hist.lost
    decreases |acts|
  {
    if acts != [] {
      StepLost(s, acts[0]);
      StepKeeps(s, acts[0]);
      LossNeedsFailure(Next(s, acts[0]).value, acts[1..]);
    }
  }

  /** In a run without crash or failure nothing is lost: every segment ever cut is in flight, dropped as short, or
      spilled, and in exactly one of these. */
  lemma NothingLost(acts: seq<Action>, s: State)
    requires Run(INIT, acts) == Some(s) && Smooth(acts)
    ensures s.hist.cuts.Keys == s.mem.jobs.Keys + s.hist.short + s.hist.spilled
    ensures s.mem.jobs.Keys !! s.hist.short !! s.hist.spilled
  {
    LossNeedsFailure(INIT, acts);
    ReachableFates(s);
  }

  lemma ReachableFates(s: State)
    requires Reachable(s)
    ensures Fates(s)
  {
    ReachableInv(s);
  }

  /** At most one webhook task is ever created for a meeting, across crashes, and only for a completed row whose
      marker is gone. */
  lemma WebhookOnce(s: State, i: nat, j: nat)
    requires Reachable(s) && i < |s.hist.hooks| && j < |s.hist.hooks|
    ensures s.hist.hooks[i] == s.hist.hooks[j] ==> i == j
    ensures IsCompleted(s, s.hist.hooks[i]) && s.hist.hooks[i] !in s.disk.marks
  {
    ReachableInv(s);
  }
}
