/** What every step of the pipeline keeps, crashes included. */
module PipelineInvariant {
  import opened Wrappers
  import opened Pipeline
  import Names

  /** Single flight: whatever drain task is alive is the one `_drain_task` refers to. */
  ghost predicate SingleFlight(s: State) {
    && (forall d :: d in s.mem.drainers ==> s.mem.handle == Some(d))
    && (s.mem.cpu.Deleting? ==> s.mem.cpu.d in s.mem.drainers && s.mem.drainers[s.mem.cpu.d].Top?)
  }

  /** Each segment ever cut is in exactly one place: in flight, dropped as short, spilled, or lost. */
  ghost predicate Fates(s: State) {
    && s.hist.cuts.Keys == s.mem.jobs.Keys + s.hist.short + s.hist.spilled + s.hist.lost
    && s.mem.jobs.Keys !! s.hist.short !! s.hist.spilled !! s.hist.lost
    && (forall seg :: seg in s.mem.jobs ==> s.mem.jobs[seg] == s.hist.cuts[seg])
    && (forall seg :: seg in s.hist.short ==> TooShort(s.hist.cuts[seg].pcm))
    && (forall seg :: seg in s.hist.spilled ==> !TooShort(s.hist.cuts[seg].pcm))
  }

  /** A sidecar's content: what was cut, under a name that was given for the user whose sound it is. */
  ghost predicate MadeFrom(s: State, seg: Seg, meta: Meta) {
    && seg in s.hist.cuts && meta == MetaOf(seg, s.hist.cuts[seg], meta.speaker)
    && (seg.meeting, s.hist.cuts[seg].user, meta.speaker) in s.hist.named
  }

  ghost predicate CpuOk(s: State) {
    match s.mem.cpu
    case Free => true
    case Spilling(seg, meta, stage) =>
      && seg in s.mem.jobs && seg in s.disk.json && !TooShort(s.mem.jobs[seg].pcm)
      && MadeFrom(s, seg, meta)
      && stage <= 2
      && s.disk.json[seg] == (if stage == 0 then Torn else Whole(meta))
      && (stage < 2 ==> seg !in s.disk.wav)
      && (stage == 2 ==> seg in s.disk.wav)
    case Deleting(d, seg, _) =>
      seg in s.disk.json && seg !in s.disk.wav && (seg in s.hist.spilled ==> Settled(s, seg) || seg in s.hist.unread)
  }

  /** The directory: every `.wav` has its `.json`; what is whole says what was cut; a fully spilled segment that is not
      settled still has both files, unless reading them failed, and then it never gets settled. */
  ghost predicate Directory(s: State) {
    && s.disk.wav.Keys <= s.disk.json.Keys <= s.hist.mtime.Keys <= s.hist.cuts.Keys
    && s.hist.spilled <= s.hist.mtime.Keys
    && (forall seg :: seg in s.mem.jobs && seg in s.hist.mtime ==> s.mem.cpu.Spilling? && s.mem.cpu.seg == seg)
    && s.hist.short !! s.hist.mtime.Keys
    && (forall seg :: seg in s.disk.json && s.disk.json[seg].Whole? ==> MadeFrom(s, seg, s.disk.json[seg].meta))
    && (forall seg :: seg in s.hist.spilled && !Settled(s, seg) && seg !in s.hist.unread ==>
          && seg in s.disk.json && s.disk.json[seg].Whole?
          && seg in s.disk.wav && s.disk.wav[seg] == Downmix(s.hist.cuts[seg].pcm))
    && s.hist.unread <= s.hist.spilled && s.hist.unread !! s.disk.wav.Keys
    && s.hist.unread !! s.hist.inserted && s.hist.unread !! s.hist.silent
  }

  ghost predicate Drainers(s: State) {
    forall d :: d in s.mem.drainers && Held(s.mem.drainers[d]).Some? ==>
      var (seg, meta) := Held(s.mem.drainers[d]).value;
      && seg in s.disk.json && s.disk.json[seg] == Whole(meta) && seg in s.disk.wav && seg !in s.mem.jobs
      && (s.mem.drainers[d].Touching? ==> seg in s.hist.inserted)
      && (s.mem.drainers[d].Inserting? ==> s.mem.drainers[d].text != "")
  }

  ghost predicate Tables(s: State) {
    && (forall seg :: seg in s.hist.inserted <==> exists i :: 0 <= i < |s.db.rows| && s.db.rows[i].seg == seg)
    && (forall i :: 0 <= i < |s.db.rows| ==>
          && s.db.rows[i].seg in s.hist.mtime && MadeFrom(s, s.db.rows[i].seg, s.db.rows[i].meta)
          && s.db.rows[i].text != "")
    && s.hist.silent <= s.hist.mtime.Keys
    && s.mem.jobs.Keys !! s.hist.inserted && s.mem.jobs.Keys !! s.hist.silent
  }

  /** The four places a meeting can be in, each at most once; after `/leave` it is in none of the first three. */
  ghost predicate Lifecycle(s: State) {
    && (forall g :: g in s.mem.active ==> Ongoing(s, s.mem.active[g].meeting))
    && (forall g, h :: g in s.mem.active && h in s.mem.active && g != h ==>
          s.mem.active[g].meeting != s.mem.active[h].meeting)
    && (forall j :: j in s.mem.joins && Opened(s.mem.joins[j]) ==> Ongoing(s, s.mem.joins[j].rec.meeting))
    && (forall j, g :: j in s.mem.joins && Opened(s.mem.joins[j]) && g in s.mem.active ==>
          s.mem.active[g].meeting != s.mem.joins[j].rec.meeting)
    && (forall j, k ::
          j in s.mem.joins && k in s.mem.joins && j != k && Opened(s.mem.joins[j]) && Opened(s.mem.joins[k]) ==>
          s.mem.joins[j].rec.meeting != s.mem.joins[k].rec.meeting)
    && (forall m :: m in s.mem.leaves ==> s.mem.leaves[m].rec.meeting == m && m in s.db.meetings && m !in s.hist.left)
    && s.disk.marks <= s.hist.left <= s.db.meetings.Keys
    && s.hist.dirty <= s.hist.left
    && (forall m :: m in s.db.meetings && s.db.meetings[m].status.Completed? ==> m in s.hist.left)
  }

  /** A meeting with a row that no `/leave` was called for. */
  ghost predicate Ongoing(s: State, m: nat) { m in s.db.meetings && m !in s.hist.left && m !in s.mem.leaves }

  /** `/leave` stores only once it is disconnected; and a meeting marked with no store task that could still spill never
      gets one. */
  ghost predicate Quiet(s: State) {
    && (forall seg :: seg in s.mem.jobs && s.mem.jobs[seg].inLeave ==>
          seg.meeting in s.mem.leaves && !s.mem.leaves[seg.meeting].connected)
    && (forall seg :: seg in s.mem.jobs && seg.meeting in s.hist.left && seg.meeting !in s.hist.dirty ==>
          TooShort(s.mem.jobs[seg].pcm))
  }

  /** Whether a meeting has a sidecar among some. */
  predicate PendingIn(json: map<Seg, Sidecar>, m: nat) { exists seg :: seg in json && seg.meeting == m }

  predicate HasPending(s: State, m: nat) { PendingIn(s.disk.json, m) }

  /** The snapshot held by a finalization pass stays right while it awaits. */
  ghost predicate SnapshotOk(s: State, todo: seq<nat>, prefixes: set<string>) {
    && (forall i :: 0 <= i < |todo| ==> todo[i] in s.disk.marks)
    && (forall i, j :: 0 <= i < j < |todo| ==> todo[i] != todo[j])
    && (forall i :: 0 <= i < |todo| && todo[i] !in s.hist.dirty && Names.Decimal(todo[i]) !in prefixes ==>
          !HasPending(s, todo[i]))
  }

  predicate IsCompleted(s: State, m: nat) { m in s.db.meetings && s.db.meetings[m].status.Completed? }

  ghost predicate Finalization(s: State) {
    && (forall d :: d in s.mem.drainers && s.mem.drainers[d].Finalizing? ==>
          SnapshotOk(s, s.mem.drainers[d].todo, s.mem.drainers[d].prefixes))
    && (forall d :: d in s.mem.drainers && s.mem.drainers[d].Unmarking? ==>
          && SnapshotOk(s, s.mem.drainers[d].todo, s.mem.drainers[d].prefixes)
          && s.mem.drainers[d].meeting in s.disk.marks && s.mem.drainers[d].meeting !in s.mem.drainers[d].todo
          && IsCompleted(s, s.mem.drainers[d].meeting))
    && (forall m :: IsCompleted(s, m) && m !in s.hist.dirty ==> !HasPending(s, m))
  }

  /** A webhook task is created at most once per meeting, after completion and after the marker is gone. */
  ghost predicate Hooks(s: State) {
    && (forall i :: 0 <= i < |s.hist.hooks| ==>
          && s.hist.hooks[i] in s.hist.left && s.hist.hooks[i] !in s.disk.marks
          && IsCompleted(s, s.hist.hooks[i]))
    && (forall i, j :: 0 <= i < j < |s.hist.hooks| ==> s.hist.hooks[i] != s.hist.hooks[j])
  }

  ghost predicate Files(s: State) {
    SingleFlight(s) && Fates(s) && CpuOk(s) && Directory(s) && Drainers(s) && Tables(s)
  }

  ghost predicate Meetings(s: State) { Lifecycle(s) && Quiet(s) && Finalization(s) && Hooks(s) }

  ghost predicate Inv(s: State) { Files(s) && Meetings(s) }

  /** The string test of the completion check decides whether a meeting has pending files. */
  lemma PrefixTest(s: State, m: nat)
    ensures Names.Decimal(m) in PendingPrefixes(s.disk.json) <==> HasPending(s, m)
  {
    forall seg | seg in s.disk.json
      ensures Names.BeforeUnderscore(Names.SidecarName(seg.meeting, seg.uuid)) == Names.Decimal(m) <==> seg.meeting == m
    {
      Names.PrefixIdentifiesMeeting(seg.meeting, seg.uuid, m);
    }
  }

  /** What the two listings at the start of a finalization pass say. */
  lemma ListingsOk(s: State)
    ensures SnapshotOk(s, Names.FinalizingMeetings(Names.MarkerNames(s.disk.marks)), PendingPrefixes(s.disk.json))
  {
    Names.FinalizingRoundTrip(s.disk.marks);
    forall m
      ensures Names.Decimal(m) in PendingPrefixes(s.disk.json) <==> HasPending(s, m)
    {
      PrefixTest(s, m);
    }
  }

  lemma FinalizeStartOk(s: State)
    ensures var pc := FinalizeStart(s.disk);
      pc.Top? || (pc.Finalizing? && SnapshotOk(s, pc.todo, pc.prefixes))
  {
    ListingsOk(s);
  }

  /** Drain tasks of `t` are those of `s`, except for tasks that hold no segment. */
  ghost predicate FilesFrame(s: State, t: State) {
    && t.disk.json == s.disk.json && t.disk.wav == s.disk.wav && t.db.rows == s.db.rows
    && t.mem.jobs == s.mem.jobs && t.mem.cpu == s.mem.cpu == Free
    && t.hist.cuts == s.hist.cuts && t.hist.mtime == s.hist.mtime && t.hist.spilled == s.hist.spilled
    && t.hist.silent == s.hist.silent && t.hist.inserted == s.hist.inserted && t.hist.short == s.hist.short
    && t.hist.lost == s.hist.lost && t.hist.unread == s.hist.unread && t.hist.named == s.hist.named
    && forall d :: d in t.mem.drainers ==>
        (d in s.mem.drainers && t.mem.drainers[d] == s.mem.drainers[d]) || Held(t.mem.drainers[d]).None?
  }

  lemma FrameKeepsFiles(s: State, t: State)
    requires Files(s) && SingleFlight(t) && FilesFrame(s, t)
    ensures Files(t)
  {}

  /** Nothing a finalization pass depends on differs; its snapshot is carried over or is right for `s`. */
  ghost predicate FinalFrame(s: State, t: State) {
    && (forall m :: HasPending(t, m) ==> HasPending(s, m))
    && (forall m :: IsCompleted(t, m) <==> IsCompleted(s, m))
    && t.disk.marks == s.disk.marks
    && t.hist.left == s.hist.left && t.hist.dirty == s.hist.dirty && t.hist.hooks == s.hist.hooks
    && forall d :: d in t.mem.drainers ==>
        || (d in s.mem.drainers && t.mem.drainers[d] == s.mem.drainers[d])
        || (!t.mem.drainers[d].Finalizing? && !t.mem.drainers[d].Unmarking?)
        || (t.mem.drainers[d].Finalizing? && SnapshotOk(s, t.mem.drainers[d].todo, t.mem.drainers[d].prefixes))
  }

  lemma FrameKeepsFinalization(s: State, t: State)
    requires Finalization(s) && Hooks(s) && FinalFrame(s, t)
    ensures Finalization(t) && Hooks(t)
  {}

  ghost predicate MeetingsFrame(s: State, t: State) {
    && FinalFrame(s, t)
    && t.db.meetings == s.db.meetings
    && t.mem.active == s.mem.active && t.mem.joins == s.mem.joins && t.mem.leaves == s.mem.leaves
    && forall seg :: seg in t.mem.jobs ==> seg in s.mem.jobs && t.mem.jobs[seg] == s.mem.jobs[seg]
  }

  lemma FrameKeepsMeetings(s: State, t: State)
    requires Meetings(s) && MeetingsFrame(s, t)
    ensures Meetings(t)
  {
    FrameKeepsFinalization(s, t);
  }

  lemma CrashFiles(s: State)
    requires Files(s)
    ensures Files(CrashState(s))
  {
    CrashFates(s);
  }

  lemma CrashFates(s: State)
    requires Fates(s)
    ensures Fates(CrashState(s))
  {}

  lemma CrashMeetings(s: State)
    requires Meetings(s)
    ensures Meetings(CrashState(s))
  {}

  lemma SpillFiles(s: State)
    requires Files(s) && SpillStep(s).Some?
    ensures Files(SpillStep(s).value)
  {
    var Spilling(seg, meta, stage) := s.mem.cpu;
    if stage == 0 {
      SpillSidecarFiles(s);
    } else if stage == 1 {
      SpillOpenAudioFiles(s);
    } else {
      SpillEndDirectory(s);
      SpillEndTables(s);
      SpillEndFates(s);
    }
  }

  lemma SpillSidecarFiles(s: State)
    requires Files(s) && s.mem.cpu.Spilling? && s.mem.cpu.stage == 0
    ensures Files(SpillStep(s).value)
  {
    SpillSidecarTables(s);
  }

  lemma SpillSidecarTables(s: State)
    requires Files(s) && s.mem.cpu.Spilling? && s.mem.cpu.stage == 0
    ensures Drainers(SpillStep(s).value) && Tables(SpillStep(s).value)
  {}

  lemma SpillOpenAudioFiles(s: State)
    requires Files(s) && s.mem.cpu.Spilling? && s.mem.cpu.stage == 1
    ensures Files(SpillStep(s).value)
  {
    SpillOpenAudioTables(s);
  }

  lemma SpillOpenAudioTables(s: State)
    requires Files(s) && s.mem.cpu.Spilling? && s.mem.cpu.stage == 1
    ensures Drainers(SpillStep(s).value) && Tables(SpillStep(s).value)
  {}

  lemma SpillEndDirectory(s: State)
    requires Files(s) && s.mem.cpu.Spilling? && s.mem.cpu.stage == 2
    ensures Directory(SpillStep(s).value)
  {}

  lemma SpillEndTables(s: State)
    requires Files(s) && s.mem.cpu.Spilling? && s.mem.cpu.stage == 2
    ensures Drainers(SpillStep(s).value) && Tables(SpillStep(s).value)
  {}

  lemma SpillEndFates(s: State)
    requires Files(s) && s.mem.cpu.Spilling? && s.mem.cpu.stage == 2
    ensures Fates(SpillStep(s).value)
  {}

  lemma SpillMeetings(s: State)
    requires CpuOk(s) && Meetings(s) && SpillStep(s).Some?
    ensures Meetings(SpillStep(s).value)
  {
    SpillMeetingsFrame(s);
    FrameKeepsMeetings(s, SpillStep(s).value);
  }

  lemma SpillMeetingsFrame(s: State)
    requires CpuOk(s) && SpillStep(s).Some?
    ensures MeetingsFrame(s, SpillStep(s).value)
  {
    if s.mem.cpu.stage == 0 {} else if s.mem.cpu.stage == 1 {}
  }

  // ---- failing stores ----

  /** The state without some store tasks; a spill in progress must be one of them. */
  function WithoutJobs(s: State, gone: set<Seg>, leaves: map<nat, Leaving>): State {
    s.(mem := s.mem.(jobs := s.mem.jobs - gone, leaves := leaves, cpu := Free),
       hist := s.hist.(lost := s.hist.lost + gone))
  }

  lemma LoseJobs(s: State, gone: set<Seg>, leaves: map<nat, Leaving>)
    requires Files(s) && gone <= s.mem.jobs.Keys && !s.mem.cpu.Deleting?
    requires s.mem.cpu.Spilling? ==> s.mem.cpu.seg in gone
    ensures Files(WithoutJobs(s, gone, leaves))
  {
    LoseJobsFates(s, gone, leaves);
  }

  lemma LoseJobsFates(s: State, gone: set<Seg>, leaves: map<nat, Leaving>)
    requires Files(s) && gone <= s.mem.jobs.Keys && !s.mem.cpu.Deleting?
    ensures Fates(WithoutJobs(s, gone, leaves))
  {}

  lemma AbandonFiles(s: State, m: nat)
    requires Files(s) && s.mem.cpu.Free?
    ensures Files(AbandonLeave(s, m))
  {
    LoseJobs(s, LeaveJobs(s.mem.jobs, m), s.mem.leaves - {m});
    assert AbandonLeave(s, m) == WithoutJobs(s, LeaveJobs(s.mem.jobs, m), s.mem.leaves - {m});
  }

  lemma AbandonMeetings(s: State, m: nat)
    requires Meetings(s)
    ensures Meetings(AbandonLeave(s, m))
  {
    assert forall seg :: seg in s.mem.jobs && s.mem.jobs[seg].inLeave && seg.meeting == m ==>
        seg in LeaveJobs(s.mem.jobs, m);
    FrameKeepsFinalization(s, AbandonLeave(s, m));
  }

  lemma FailStoreFiles(s: State, seg: Seg)
    requires Files(s) && s.mem.cpu.Free? && seg in s.mem.jobs
    ensures Files(FailStore(s, seg))
  {
    if s.mem.jobs[seg].inLeave {
      AbandonFiles(s, seg.meeting);
    } else {
      LoseJobs(s, {seg}, s.mem.leaves);
      assert FailStore(s, seg) == WithoutJobs(s, {seg}, s.mem.leaves);
    }
  }

  lemma FailStoreMeetings(s: State, seg: Seg)
    requires Meetings(s) && seg in s.mem.jobs
    ensures Meetings(FailStore(s, seg))
  {
    if s.mem.jobs[seg].inLeave {
      AbandonMeetings(s, seg.meeting);
    } else {
      FrameKeepsMeetings(s, FailStore(s, seg));
    }
  }

  lemma SpillFailFiles(s: State)
    requires Files(s) && SpillFailStep(s).Some?
    ensures Files(SpillFailStep(s).value)
  {
    var seg := s.mem.cpu.seg;
    if s.mem.jobs[seg].inLeave {
      LoseJobs(s, LeaveJobs(s.mem.jobs, seg.meeting), s.mem.leaves - {seg.meeting});
    } else {
      LoseJobs(s, {seg}, s.mem.leaves);
    }
  }

  lemma SpillFailMeetings(s: State)
    requires Meetings(s) && SpillFailStep(s).Some?
    ensures Meetings(SpillFailStep(s).value)
  {
    FailStoreMeetings(s, s.mem.cpu.seg);
    FrameKeepsMeetings(FailStore(s, s.mem.cpu.seg), SpillFailStep(s).value);
  }

  lemma UnlinkFailFiles(s: State)
    requires Files(s) && UnlinkFailStep(s).Some?
    ensures Files(UnlinkFailStep(s).value)
  {}

  lemma UnlinkFiles(s: State)
    requires Files(s) && UnlinkStep(s).Some?
    ensures Files(UnlinkStep(s).value)
  {
    UnlinkDirectory(s);
  }

  lemma UnlinkDirectory(s: State)
    requires Files(s) && UnlinkStep(s).Some?
    ensures Directory(UnlinkStep(s).value) && Drainers(UnlinkStep(s).value)
  {}

  lemma UnlinkMeetings(s: State)
    requires Meetings(s) && UnlinkStep(s).Some?
    ensures Meetings(UnlinkStep(s).value)
  {
    UnlinkFinalization(s);
  }

  lemma UnlinkFinalization(s: State)
    requires Finalization(s) && Hooks(s) && UnlinkStep(s).Some?
    ensures Finalization(UnlinkStep(s).value)
  {
    var mid := s.(disk := s.disk.(json := s.disk.json - {s.mem.cpu.seg}));
    ShrinkFinalization(s, mid);
    FinalizeStartOk(mid);
    FrameKeepsFinalization(mid, UnlinkStep(s).value);
  }

  /** Fewer pending files keep every snapshot right. */
  lemma ShrinkFinalization(s: State, t: State)
    requires Finalization(s) && t == s.(disk := s.disk.(json := t.disk.json)) && t.disk.json.Keys <= s.disk.json.Keys
    ensures Finalization(t)
  {}

  /** The files of a segment are about to go. */
  ghost predicate Doomed(s: State, seg: Seg) {
    seg in s.disk.json && (seg in s.hist.spilled ==> Settled(s, seg) || seg in s.hist.unread)
  }

  lemma DeletingFiles(s: State, d: nat, seg: Seg, thenFinalize: bool)
    requires Files(s) && s.mem.cpu.Free? && d in s.mem.drainers && Doomed(s, seg)
    ensures Files(StartDeleting(s, d, seg, thenFinalize))
  {}

  lemma ScanFiles(s: State, d: nat, head: Seg, readOk: bool)
    requires Files(s) && s.mem.cpu.Free? && ScanStep(s, d, head, readOk).Some?
    ensures Files(ScanStep(s, d, head, readOk).value)
  {
    if Readable(s.disk, head) && readOk {
      ReadFiles(s, d, head);
    } else if Loses(s, head) {
      UnreadFiles(s, d, head);
    } else {
      DeletingFiles(s, d, head, false);
      assert WithUnread(s, head) == s.hist;
    }
  }

  lemma ReadFiles(s: State, d: nat, head: Seg)
    requires Files(s) && s.mem.cpu.Free? && d in s.mem.drainers && Readable(s.disk, head)
    ensures Files(s.(mem := WithPc(s.mem, d, Transcribing(head, s.disk.json[head].meta))))
  {
    NotStored(s, head);
  }

  /** Files that could not be read are deleted, and the segment joins the lost ones. */
  lemma UnreadFiles(s: State, d: nat, head: Seg)
    requires Files(s) && s.mem.cpu.Free? && d in s.mem.drainers && s.mem.drainers[d].Top? && Loses(s, head)
    ensures Files(StartDeleting(s, d, head, false).(hist := WithUnread(s, head)))
  {
    UnreadDirectory(s, d, head);
  }

  lemma UnreadDirectory(s: State, d: nat, head: Seg)
    requires Files(s) && s.mem.cpu.Free? && d in s.mem.drainers && s.mem.drainers[d].Top? && Loses(s, head)
    ensures Directory(StartDeleting(s, d, head, false).(hist := WithUnread(s, head)))
  {}

  lemma NotStored(s: State, seg: Seg)
    requires Files(s) && s.mem.cpu.Free? && seg in s.disk.json
    ensures seg !in s.mem.jobs
  {}

  lemma AnswerFiles(s: State, d: nat, reply: Option<string>)
    requires Files(s) && s.mem.cpu.Free? && AnswerStep(s, d, reply).Some?
    ensures Files(AnswerStep(s, d, reply).value)
  {
    if reply == Some("") {
      var seg := s.mem.drainers[d].seg;
      SilentFiles(s, seg);
      DeletingFiles(s.(hist := s.hist.(silent := s.hist.silent + {seg})), d, seg, true);
    } else {
      MoveFiles(s, d, AnswerStep(s, d, reply).value.mem.drainers[d]);
    }
  }

  /** A drain task goes on with the segment it holds, or lets go of it. */
  lemma MoveFiles(s: State, d: nat, pc: Pc)
    requires Files(s) && s.mem.cpu.Free? && d in s.mem.drainers && !pc.Touching? && (pc.Inserting? ==> pc.text != "")
    requires Held(pc).None? || Held(pc) == Held(s.mem.drainers[d])
    ensures Files(s.(mem := WithPc(s.mem, d, pc)))
  {}

  lemma SilentFiles(s: State, seg: Seg)
    requires Files(s) && s.mem.cpu.Free? && seg in s.disk.json && seg in s.disk.wav && seg !in s.mem.jobs
    ensures Files(s.(hist := s.hist.(silent := s.hist.silent + {seg})))
  {}

  lemma InsertRowFiles(s: State, d: nat)
    requires Files(s) && s.mem.cpu.Free? && InsertRowStep(s, d).Some?
    ensures Files(InsertRowStep(s, d).value)
  {
    InsertRowTables(s, d);
    InsertRowDirectory(s, d);
  }

  lemma InsertRowDirectory(s: State, d: nat)
    requires Files(s) && s.mem.cpu.Free? && InsertRowStep(s, d).Some?
    ensures Directory(InsertRowStep(s, d).value) && Drainers(InsertRowStep(s, d).value)
  {}

  lemma InsertRowTables(s: State, d: nat)
    requires Files(s) && s.mem.cpu.Free? && InsertRowStep(s, d).Some?
    ensures Tables(InsertRowStep(s, d).value)
  {
    var t := InsertRowStep(s, d).value;
    var n := |s.db.rows|;
    InsertedRows(s.db.rows, t.db.rows[n], s.hist.inserted);
    assert t.db.rows[..n] == s.db.rows && t.db.rows[n].seg == s.mem.drainers[d].seg;
    InsertRowMade(s, d);
  }

  lemma InsertRowMade(s: State, d: nat)
    requires Files(s) && InsertRowStep(s, d).Some?
    ensures var Inserting(seg, meta, text) := s.mem.drainers[d];
      seg in s.hist.mtime && MadeFrom(s, seg, meta) && text != "" && seg !in s.mem.jobs
  {
    assert Held(s.mem.drainers[d]).Some?;
  }

  /** The inserted segments stay those with a row when one is appended. */
  lemma InsertedRows(rows: seq<Row>, row: Row, inserted: set<Seg>)
    requires forall seg :: seg in inserted <==> exists i :: 0 <= i < |rows| && rows[i].seg == seg
    ensures var more := rows + [row];
      forall seg :: seg in inserted + {row.seg} <==> exists i :: 0 <= i < |more| && more[i].seg == seg
  {
    var more := rows + [row];
    assert more[|rows|] == row;
    forall seg | seg in inserted
      ensures exists i :: 0 <= i < |more| && more[i].seg == seg
    {
      var i :| 0 <= i < |rows| && rows[i].seg == seg;
      assert more[i].seg == seg;
    }
  }

  lemma DrainFiles(s: State, a: Action)
    requires Files(s) && s.mem.cpu.Free? && DrainStep(s, a).Some?
    ensures Files(DrainStep(s, a).value)
  {
    if a.Scan? {
      ScanFiles(s, a.d, a.head, a.readOk);
    } else if a.Answer? {
      AnswerFiles(s, a.d, a.reply);
    } else if a.InsertRow? {
      InsertRowFiles(s, a.d);
    } else if a.TouchMeeting? {
      DeletingFiles(s, a.d, s.mem.drainers[a.d].seg, true);
    } else {
      DrainFilesFrame(s, a);
      SingleFlightKeeps(s, a);
      FrameKeepsFiles(s, DrainStep(s, a).value);
    }
  }

  lemma DrainFilesFrame(s: State, a: Action)
    requires s.mem.cpu.Free? && DrainStep(s, a).Some?
    requires !a.Scan? && !a.Answer? && !a.InsertRow? && !a.TouchMeeting?
    ensures FilesFrame(s, DrainStep(s, a).value)
  {
    match a
    case EnsureDrain(_) =>
    case ScanEmpty(_) =>
    case FinalizeNext(d) =>
      var Finalizing(todo, prefixes) := s.mem.drainers[d];
      if todo == [] {} else if Names.Decimal(todo[0]) in prefixes {}
    case Unmark(_, _) =>
    case _ =>
  }

  lemma SingleFlightKeeps(s: State, a: Action)
    requires SingleFlight(s) && s.mem.cpu.Free? && DrainStep(s, a).Some?
    ensures SingleFlight(DrainStep(s, a).value)
  {
    if a.EnsureDrain? || a.DrainerDies? {
      TaskSingleFlight(s, a);
    } else if a.Scan? || a.Answer? || a.TouchMeeting? {
      HeadSingleFlight(s, a);
    }
  }

  lemma TaskSingleFlight(s: State, a: Action)
    requires SingleFlight(s) && s.mem.cpu.Free? && DrainStep(s, a).Some? && (a.EnsureDrain? || a.DrainerDies?)
    ensures SingleFlight(DrainStep(s, a).value)
  {}

  lemma HeadSingleFlight(s: State, a: Action)
    requires SingleFlight(s) && s.mem.cpu.Free? && DrainStep(s, a).Some? && (a.Scan? || a.Answer? || a.TouchMeeting?)
    ensures SingleFlight(DrainStep(s, a).value)
  {}

  lemma SnapshotTail(s: State, todo: seq<nat>, prefixes: set<string>)
    requires SnapshotOk(s, todo, prefixes) && todo != []
    ensures SnapshotOk(s, todo[1..], prefixes) && todo[0] in s.disk.marks && todo[0] !in todo[1..]
    ensures todo[0] !in s.hist.dirty && Names.Decimal(todo[0]) !in prefixes ==> !HasPending(s, todo[0])
  {}

  lemma FinalizeMeetings(s: State, d: nat)
    requires SingleFlight(s) && Meetings(s) && s.mem.cpu.Free? && FinalizeStep(s, d).Some?
    ensures Meetings(FinalizeStep(s, d).value)
  {
    var Finalizing(todo, prefixes) := s.mem.drainers[d];
    if todo == [] {
      FrameKeepsMeetings(s, FinalizeStep(s, d).value);
    } else {
      SnapshotTail(s, todo, prefixes);
      if Names.Decimal(todo[0]) in prefixes {
        FrameKeepsMeetings(s, FinalizeStep(s, d).value);
      } else {
        CompleteFinalization(s, d);
        CompleteLifecycle(s, d);
      }
    }
  }

  lemma CompleteLifecycle(s: State, d: nat)
    requires SingleFlight(s) && Meetings(s) && s.mem.cpu.Free? && FinalizeStep(s, d).Some?
    requires s.mem.drainers[d].todo != [] && Names.Decimal(s.mem.drainers[d].todo[0]) !in s.mem.drainers[d].prefixes
    ensures Lifecycle(FinalizeStep(s, d).value) && Quiet(FinalizeStep(s, d).value)
  {}

  lemma CompleteFinalization(s: State, d: nat)
    requires SingleFlight(s) && Meetings(s) && s.mem.cpu.Free? && FinalizeStep(s, d).Some?
    requires s.mem.drainers[d].todo != [] && Names.Decimal(s.mem.drainers[d].todo[0]) !in s.mem.drainers[d].prefixes
    ensures Finalization(FinalizeStep(s, d).value) && Hooks(FinalizeStep(s, d).value)
  {
    SnapshotTail(s, s.mem.drainers[d].todo, s.mem.drainers[d].prefixes);
  }

  lemma UnmarkMeetings(s: State, d: nat, hook: bool)
    requires SingleFlight(s) && Meetings(s) && s.mem.cpu.Free? && UnmarkStep(s, d, hook).Some?
    ensures Meetings(UnmarkStep(s, d, hook).value)
  {
    UnmarkFinalization(s, d, hook);
    UnmarkHooks(s, d, hook);
  }

  lemma UnmarkHooks(s: State, d: nat, hook: bool)
    requires SingleFlight(s) && Meetings(s) && s.mem.cpu.Free? && UnmarkStep(s, d, hook).Some?
    ensures Hooks(UnmarkStep(s, d, hook).value)
  {}

  lemma UnmarkFinalization(s: State, d: nat, hook: bool)
    requires SingleFlight(s) && Meetings(s) && s.mem.cpu.Free? && UnmarkStep(s, d, hook).Some?
    ensures Finalization(UnmarkStep(s, d, hook).value)
  {}

  lemma DrainMeetings(s: State, a: Action)
    requires SingleFlight(s) && Meetings(s) && s.mem.cpu.Free? && DrainStep(s, a).Some?
    ensures Meetings(DrainStep(s, a).value)
  {
    if a.FinalizeNext? {
      FinalizeMeetings(s, a.d);
    } else if a.Unmark? {
      UnmarkMeetings(s, a.d, a.hook);
    } else {
      DrainMeetingsFrame(s, a);
      FrameKeepsMeetings(s, DrainStep(s, a).value);
    }
  }

  lemma DrainMeetingsFrame(s: State, a: Action)
    requires s.mem.cpu.Free? && DrainStep(s, a).Some?
    requires !a.FinalizeNext? && !a.Unmark?
    ensures MeetingsFrame(s, DrainStep(s, a).value)
  {
    if a.ScanEmpty? {
      FinalizeStartOk(s);
    } else if a.Scan? || a.Answer? {
      HeadMeetingsFrame(s, a);
    }
  }

  lemma HeadMeetingsFrame(s: State, a: Action)
    requires s.mem.cpu.Free? && DrainStep(s, a).Some? && (a.Scan? || a.Answer?)
    ensures MeetingsFrame(s, DrainStep(s, a).value)
  {
    if a.Scan? {
      if Readable(s.disk, a.head) && a.readOk {}
    } else {
      if a.reply.None? {} else if a.reply.value == "" {}
    }
  }

  lemma StoreFiles(s: State, a: Action)
    requires Files(s) && s.mem.cpu.Free? && StoreStep(s, a).Some?
    ensures Files(StoreStep(s, a).value)
  {
    if a.LeavePop? || a.LeaveDisconnect? || a.LeaveMark? {
      StoreFilesFrame(s, a);
      FrameKeepsFiles(s, StoreStep(s, a).value);
    } else {
      JobFiles(s, a);
    }
  }

  lemma StoreFilesFrame(s: State, a: Action)
    requires SingleFlight(s) && s.mem.cpu.Free? && StoreStep(s, a).Some?
    requires a.LeavePop? || a.LeaveDisconnect? || a.LeaveMark?
    ensures FilesFrame(s, StoreStep(s, a).value) && SingleFlight(StoreStep(s, a).value)
  {}

  lemma JobFiles(s: State, a: Action)
    requires Files(s) && s.mem.cpu.Free? && StoreStep(s, a).Some?
    requires !a.LeavePop? && !a.LeaveDisconnect? && !a.LeaveMark?
    ensures Files(StoreStep(s, a).value)
  {
    if a.SpillOpen? {
      SpillOpenFiles(s, a.seg, a.speaker, a.stamp);
    } else if a.Cut? {
      var rec := s.mem.active[a.guild];
      AddJobFiles(s, Seg(rec.meeting, a.uuid), Job(rec, a.user, a.pcm, a.t0, a.t1, false));
    } else if a.LeaveCut? {
      AddJobFiles(s, Seg(a.meeting, a.uuid), Job(s.mem.leaves[a.meeting].rec, a.user, a.pcm, a.t0, a.t1, true));
    } else if a.DropShort? {
      DropShortFiles(s, a.seg);
    } else if a.StoreFail? {
      FailStoreFiles(s, a.seg);
    } else {
      AbandonFiles(s, a.meeting);
    }
  }

  lemma AddJobFiles(s: State, seg: Seg, job: Job)
    requires Files(s) && s.mem.cpu.Free? && AddJob(s, seg, job).Some?
    ensures Files(AddJob(s, seg, job).value)
  {
    AddJobDirectory(s, seg, job);
  }

  lemma AddJobDirectory(s: State, seg: Seg, job: Job)
    requires Files(s) && s.mem.cpu.Free? && AddJob(s, seg, job).Some?
    ensures Directory(AddJob(s, seg, job).value) && Tables(AddJob(s, seg, job).value)
  {}

  lemma SpillOpenFiles(s: State, seg: Seg, speaker: string, stamp: int)
    requires Files(s) && s.mem.cpu.Free? && SpillOpenStep(s, seg, speaker, stamp).Some?
    ensures Files(SpillOpenStep(s, seg, speaker, stamp).value)
  {
    SpillOpenDirectory(s, seg, speaker, stamp);
  }

  lemma SpillOpenDirectory(s: State, seg: Seg, speaker: string, stamp: int)
    requires Files(s) && s.mem.cpu.Free? && SpillOpenStep(s, seg, speaker, stamp).Some?
    ensures Directory(SpillOpenStep(s, seg, speaker, stamp).value)
  {}

  lemma DropShortFiles(s: State, seg: Seg)
    requires Files(s) && s.mem.cpu.Free? && StoreStep(s, DropShort(seg)).Some?
    ensures Files(StoreStep(s, DropShort(seg)).value)
  {
    DropShortFates(s, seg);
    NotPending(s, seg);
  }

  lemma DropShortFates(s: State, seg: Seg)
    requires Fates(s) && s.mem.cpu.Free? && StoreStep(s, DropShort(seg)).Some?
    ensures Fates(StoreStep(s, DropShort(seg)).value)
  {}

  lemma NotPending(s: State, seg: Seg)
    requires Files(s) && s.mem.cpu.Free? && seg in s.mem.jobs
    ensures seg !in s.hist.mtime && seg !in s.disk.json && seg !in s.hist.spilled
  {}

  lemma StoreMeetings(s: State, a: Action)
    requires Meetings(s) && s.mem.cpu.Free? && StoreStep(s, a).Some?
    ensures Meetings(StoreStep(s, a).value)
  {
    if a.LeavePop? {
      LeavePopMeetings(s, a.guild);
    } else if a.LeaveDisconnect? {
      LeaveDisconnectMeetings(s, a.meeting);
    } else if a.LeaveMark? {
      LeaveMarkMeetings(s, a.meeting, a.d);
    } else {
      JobMeetings(s, a);
    }
  }

  lemma JobMeetings(s: State, a: Action)
    requires Meetings(s) && s.mem.cpu.Free? && StoreStep(s, a).Some?
    requires !a.LeavePop? && !a.LeaveDisconnect? && !a.LeaveMark?
    ensures Meetings(StoreStep(s, a).value)
  {
    if a.SpillOpen? {
      SpillOpenMeetings(s, a.seg, a.speaker, a.stamp);
    } else if a.Cut? {
      var rec := s.mem.active[a.guild];
      AddJobMeetings(s, Seg(rec.meeting, a.uuid), Job(rec, a.user, a.pcm, a.t0, a.t1, false));
    } else if a.LeaveCut? {
      AddJobMeetings(s, Seg(a.meeting, a.uuid), Job(s.mem.leaves[a.meeting].rec, a.user, a.pcm, a.t0, a.t1, true));
    } else if a.DropShort? {
      FrameKeepsMeetings(s, StoreStep(s, a).value);
    } else if a.StoreFail? {
      FailStoreMeetings(s, a.seg);
    } else {
      AbandonMeetings(s, a.meeting);
    }
  }

  lemma AddJobMeetings(s: State, seg: Seg, job: Job)
    requires Meetings(s) && AddJob(s, seg, job).Some?
    requires seg.meeting !in s.hist.left
    requires job.inLeave ==> seg.meeting in s.mem.leaves && !s.mem.leaves[seg.meeting].connected
    ensures Meetings(AddJob(s, seg, job).value)
  {
    FrameKeepsFinalization(s, AddJob(s, seg, job).value);
  }

  lemma SpillOpenMeetings(s: State, seg: Seg, speaker: string, stamp: int)
    requires Meetings(s) && s.mem.cpu.Free? && SpillOpenStep(s, seg, speaker, stamp).Some?
    ensures Meetings(SpillOpenStep(s, seg, speaker, stamp).value)
  {
    SpillOpenFinalization(s, seg, speaker, stamp);
  }

  lemma SpillOpenFinalization(s: State, seg: Seg, speaker: string, stamp: int)
    requires Meetings(s) && s.mem.cpu.Free? && SpillOpenStep(s, seg, speaker, stamp).Some?
    ensures Finalization(SpillOpenStep(s, seg, speaker, stamp).value)
    ensures Hooks(SpillOpenStep(s, seg, speaker, stamp).value)
  {}

  lemma LeavePopMeetings(s: State, g: Guild)
    requires Meetings(s) && s.mem.cpu.Free? && StoreStep(s, LeavePop(g)).Some?
    ensures Meetings(StoreStep(s, LeavePop(g)).value)
  {
    FrameKeepsFinalization(s, StoreStep(s, LeavePop(g)).value);
  }

  lemma LeaveDisconnectMeetings(s: State, m: nat)
    requires Meetings(s) && s.mem.cpu.Free? && StoreStep(s, LeaveDisconnect(m)).Some?
    ensures Meetings(StoreStep(s, LeaveDisconnect(m)).value)
  {
    FrameKeepsFinalization(s, StoreStep(s, LeaveDisconnect(m)).value);
    LeaveDisconnectLifecycle(s, m);
  }

  lemma LeaveDisconnectLifecycle(s: State, m: nat)
    requires Lifecycle(s) && Quiet(s) && s.mem.cpu.Free? && StoreStep(s, LeaveDisconnect(m)).Some?
    ensures Lifecycle(StoreStep(s, LeaveDisconnect(m)).value) && Quiet(StoreStep(s, LeaveDisconnect(m)).value)
  {
    LeaveDisconnectQuiet(s, m);
  }

  lemma LeaveDisconnectQuiet(s: State, m: nat)
    requires Quiet(s) && s.mem.cpu.Free? && StoreStep(s, LeaveDisconnect(m)).Some?
    ensures Quiet(StoreStep(s, LeaveDisconnect(m)).value)
  {}

  lemma LeaveMarkMeetings(s: State, m: nat, d: nat)
    requires Meetings(s) && s.mem.cpu.Free? && LeaveMarkStep(s, m, d).Some?
    ensures Meetings(LeaveMarkStep(s, m, d).value)
  {
    LeaveMarkQuiet(s, m, d);
    LeaveMarkFinalization(s, m, d);
  }

  lemma LeaveMarkQuiet(s: State, m: nat, d: nat)
    requires Lifecycle(s) && Quiet(s) && LeaveMarkStep(s, m, d).Some?
    ensures Lifecycle(LeaveMarkStep(s, m, d).value) && Quiet(LeaveMarkStep(s, m, d).value)
  {
    LeaveMarkOnlyQuiet(s, m, d);
  }

  lemma LeaveMarkOnlyQuiet(s: State, m: nat, d: nat)
    requires Quiet(s) && LeaveMarkStep(s, m, d).Some?
    ensures Quiet(LeaveMarkStep(s, m, d).value)
  {
    assert forall seg :: seg in s.mem.jobs && s.mem.jobs[seg].inLeave && seg.meeting == m ==>
        seg in LeaveJobs(s.mem.jobs, m);
    assert forall seg :: seg in s.mem.jobs && seg.meeting == m && !TooShort(s.mem.jobs[seg].pcm) ==>
        seg in LongJobs(s.mem.jobs, m);
  }

  /** One more marker is no concern of a pass that has its list, nor of a webhook: the meeting is not completed. */
  lemma LeaveMarkFinalization(s: State, m: nat, d: nat)
    requires Lifecycle(s) && Finalization(s) && Hooks(s) && LeaveMarkStep(s, m, d).Some?
    ensures Finalization(LeaveMarkStep(s, m, d).value) && Hooks(LeaveMarkStep(s, m, d).value)
  {
    var t := LeaveMarkStep(s, m, d).value;
    var mid := s.(disk := t.disk, hist := t.hist);
    assert !IsCompleted(s, m);
    MarkedFinalization(s, mid, m);
    MarkedHooks(s, mid, m);
    FrameKeepsFinalization(mid, t);
  }

  /** The same state but for a new marker. */
  ghost predicate Marked(s: State, t: State, m: nat) {
    && t.disk == s.disk.(marks := s.disk.marks + {m}) && t.db == s.db && t.mem == s.mem
    && t.hist == s.hist.(left := s.hist.left + {m}, dirty := t.hist.dirty)
    && s.hist.dirty <= t.hist.dirty <= s.hist.dirty + {m}
  }

  lemma MarkedFinalization(s: State, t: State, m: nat)
    requires Finalization(s) && Marked(s, t, m)
    ensures Finalization(t)
  {}

  lemma MarkedHooks(s: State, t: State, m: nat)
    requires Hooks(s) && Marked(s, t, m) && !IsCompleted(s, m)
    ensures Hooks(t)
  {}

  lemma JoinFiles(s: State, a: Action)
    requires Files(s) && s.mem.cpu.Free? && JoinStep(s, a).Some?
    ensures Files(JoinStep(s, a).value)
  {
    FrameKeepsFiles(s, JoinStep(s, a).value);
  }

  lemma JoinMeetings(s: State, a: Action)
    requires Meetings(s) && s.mem.cpu.Free? && JoinStep(s, a).Some?
    ensures Meetings(JoinStep(s, a).value)
  {
    JoinLifecycle(s, a);
    JoinFinalFrame(s, a);
    FrameKeepsFinalization(s, JoinStep(s, a).value);
  }

  lemma JoinLifecycle(s: State, a: Action)
    requires Lifecycle(s) && Quiet(s) && s.mem.cpu.Free? && JoinStep(s, a).Some?
    ensures Lifecycle(JoinStep(s, a).value) && Quiet(JoinStep(s, a).value)
  {
    if a.JoinInsert? {
      JoinInsertLifecycle(s, a);
    } else if a.JoinUp? {
      JoinUpLifecycle(s, a);
    } else {
      JoinKeepsMeetings(s, a);
      LifecycleFrame(s, JoinStep(s, a).value);
    }
  }

  /** Nothing new is recorded, and nothing new is completed. */
  ghost predicate NothingNew(s: State, t: State) {
    && t.mem.active == s.mem.active && t.mem.leaves == s.mem.leaves && t.disk.marks == s.disk.marks
    && t.hist.left == s.hist.left && t.hist.dirty == s.hist.dirty && t.mem.jobs == s.mem.jobs
    && (forall j :: j in t.mem.joins && Opened(t.mem.joins[j]) ==>
          j in s.mem.joins && Opened(s.mem.joins[j]) && s.mem.joins[j].rec == t.mem.joins[j].rec)
    && t.db.meetings.Keys == s.db.meetings.Keys
    && forall m :: m in t.db.meetings && t.db.meetings[m].status.Completed? ==> s.db.meetings[m].status.Completed?
  }

  lemma LifecycleFrame(s: State, t: State)
    requires Lifecycle(s) && NothingNew(s, t)
    ensures Lifecycle(t)
  {}

  lemma JoinKeepsMeetings(s: State, a: Action)
    requires Lifecycle(s) && s.mem.cpu.Free? && JoinStep(s, a).Some? && !a.JoinInsert? && !a.JoinUp?
    ensures NothingNew(s, JoinStep(s, a).value)
  {}

  lemma JoinUpLifecycle(s: State, a: Action)
    requires Lifecycle(s) && Quiet(s) && s.mem.cpu.Free? && a.JoinUp? && JoinStep(s, a).Some?
    ensures Lifecycle(JoinStep(s, a).value)
  {}

  lemma JoinInsertLifecycle(s: State, a: Action)
    requires Lifecycle(s) && Quiet(s) && s.mem.cpu.Free? && a.JoinInsert? && JoinStep(s, a).Some?
    ensures Lifecycle(JoinStep(s, a).value)
  {}

  lemma JoinFinalFrame(s: State, a: Action)
    requires Lifecycle(s) && s.mem.cpu.Free? && JoinStep(s, a).Some?
    ensures FinalFrame(s, JoinStep(s, a).value)
  {
    if a.JoinInsert? {
    } else if a.JoinDown? {
    } else if a.JoinRetire? {
    }
  }

  lemma StepFiles(s: State, a: Action)
    requires Inv(s) && Next(s, a).Some?
    ensures Files(Next(s, a).value)
  {
    if a.Crash? {
      CrashFiles(s);
    } else if a.SpillNext? {
      SpillFiles(s);
    } else if a.SpillFail? {
      SpillFailFiles(s);
    } else if a.UnlinkJson? {
      UnlinkFiles(s);
    } else if a.UnlinkFail? {
      UnlinkFailFiles(s);
    } else if OfDrainer(a) {
      DrainFiles(s, a);
    } else if OfJoin(a) {
      JoinFiles(s, a);
    } else {
      StoreFiles(s, a);
    }
  }

  lemma StepMeetings(s: State, a: Action)
    requires Inv(s) && Next(s, a).Some?
    ensures Meetings(Next(s, a).value)
  {
    if a.Crash? {
      CrashMeetings(s);
    } else if a.SpillNext? {
      SpillMeetings(s);
    } else if a.SpillFail? {
      SpillFailMeetings(s);
    } else if a.UnlinkJson? {
      UnlinkMeetings(s);
    } else if a.UnlinkFail? {
      FrameKeepsMeetings(s, UnlinkFailStep(s).value);
    } else if OfDrainer(a) {
      DrainMeetings(s, a);
    } else if OfJoin(a) {
      JoinMeetings(s, a);
    } else {
      StoreMeetings(s, a);
    }
  }

  /** Every step keeps the invariant. */
  lemma StepKeeps(s: State, a: Action)
    requires Inv(s) && Next(s, a).Some?
    ensures Inv(Next(s, a).value)
  {
    StepFiles(s, a);
    StepMeetings(s, a);
  }

  lemma {:induction false} RunKeeps(s: State, acts: seq<Action>)
    requires Inv(s) && Run(s, acts).Some?
    ensures Inv(Run(s, acts).value)
    decreases |acts|
  {
    if acts != [] {
      StepKeeps(s, acts[0]);
      RunKeeps(Next(s, acts[0]).value, acts[1..]);
    }
  }

  lemma ReachableInv(s: State)
    requires Reachable(s)
    ensures Inv(s)
  {
    var acts: seq<Action> :| Run(INIT, acts) == Some(s);
    RunKeeps(INIT, acts);
  }
}
