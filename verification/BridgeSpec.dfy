/** What the coroutines of bot.py do to the values they change: the specification of the class `Bridge`. */
module BridgeSpec {
  import opened Bytes
  import opened Wrappers
  import opened Pipeline
  import opened PipelineInvariant
  import PcmBuffers
  import Segmentation
  import Names

  /** What the outside world answers during one pass of the drainer; `unlinks` is how many of the two unlinkings of the
      files of a segment succeed before one raises. */
  datatype Pass = Pass(readOk: bool, reply: Option<string>, insertOk: bool, touchOk: bool, unlinks: nat,
                       updateFails: iset<nat>, hookFails: iset<nat>)

  /** The result of `drain_once`; `Raised` when an exception reaches `drain_loop`. */
  datatype Outcome = Done | Failing | Idle | Raised

  /** What the outside world answers while cuts are stored, by position: the uuid of the files, the speaker's name, the
      time stamp, and how many of the four file operations succeed before one fails. */
  datatype Answers = Answers(uuid: nat -> string, speaker: nat -> string, stamp: nat -> int, writes: nat -> nat)

  /** How `client.stop` and `vc.disconnect` end when a guild is left. The latter gives the voice client up even if it
      raises. */
  datatype Hangup = StopRaises | DisconnectRaises | Closed

  ghost predicate Distinct(e: Answers) { forall i, j :: i != j ==> e.uuid(i) != e.uuid(j) }

  /** The uuids are new and differ. */
  ghost predicate FreshNames(hist: Hist, m: nat, e: Answers) { FreshFrom(hist, m, e, 0) && Distinct(e) }

  /** The uuids from a position on are new. */
  ghost predicate FreshFrom(hist: Hist, m: nat, e: Answers, i: nat) {
    forall n :: n >= i ==> Seg(m, e.uuid(n)) !in hist.cuts
  }

  /** A drain task is at the start of a finalization pass. As in `Leads`, the quantifier keeps this folded. */
  ghost predicate StartsPass(pc: Pc, disk: Disk) { forall x :: x == disk ==> pc == FinalizeStart(x) }

  /** The worker or a statement fails. */
  predicate Refused(p: Pass) { p.reply.None? || (p.reply != Some("") && !(p.insertOk && p.touchOk)) }

  /** A pass that leaves a head that is there where it is. */
  predicate Unlucky(p: Pass) { p.unlinks < 2 || (p.readOk && Refused(p)) }

  /** No pass deletes the `.wav` of a segment only. */
  ghost predicate PairsGo(passes: seq<Pass>) { forall k :: 0 <= k < |passes| ==> passes[k].unlinks != 1 }

  /** No UPDATE of a finalization pass raises. */
  ghost predicate UpdatesWork(passes: seq<Pass>) { forall k :: 0 <= k < |passes| ==> passes[k].updateFails == iset{} }

  function CountUnlucky(passes: seq<Pass>): nat {
    if passes == [] then 0
    else CountUnlucky(passes[..|passes| - 1]) + (if Unlucky(passes[|passes| - 1]) then 1 else 0)
  }

  /** Every pending segment has both its files. */
  predicate AllReadable(disk: Disk) { forall seg :: seg in disk.json ==> Readable(disk, seg) }

  function JobOf(rec: Recording, c: PcmBuffers.Cut, inLeave: bool): Job {
    Job(rec, c.user, c.pcm, c.start, c.last, inLeave)
  }

  /** The table of store tasks after creating one for each cut. */
  function AddJobs(jobs: map<Seg, Job>, rec: Recording, cuts: seq<PcmBuffers.Cut>, e: Answers): map<Seg, Job> {
    if cuts == [] then jobs
    else
      var n := |cuts| - 1;
      AddJobs(jobs, rec, cuts[..n], e)[Seg(rec.meeting, e.uuid(n)) := JobOf(rec, cuts[n], false)]
  }

  lemma {:induction false} AddJobsDomain(jobs: map<Seg, Job>, rec: Recording, cuts: seq<PcmBuffers.Cut>, e: Answers)
    ensures forall seg :: seg in AddJobs(jobs, rec, cuts, e) ==>
      seg in jobs || exists i :: 0 <= i < |cuts| && seg == Seg(rec.meeting, e.uuid(i))
  {
    if cuts != [] {
      AddJobsDomain(jobs, rec, cuts[..|cuts| - 1], e);
    }
  }

  lemma {:induction false} AddJobsCount(jobs: map<Seg, Job>, rec: Recording, cuts: seq<PcmBuffers.Cut>, e: Answers)
    requires Distinct(e)
    requires forall i: nat :: Seg(rec.meeting, e.uuid(i)) !in jobs
    ensures |AddJobs(jobs, rec, cuts, e).Keys| == |jobs.Keys| + |cuts|
  {
    if cuts != [] {
      var n := |cuts| - 1;
      AddJobsCount(jobs, rec, cuts[..n], e);
      AddJobsDomain(jobs, rec, cuts[..n], e);
      var before, last := AddJobs(jobs, rec, cuts[..n], e), Seg(rec.meeting, e.uuid(n));
      assert last !in before.Keys;
      assert AddJobs(jobs, rec, cuts, e).Keys == before.Keys + {last};
    }
  }

  lemma {:induction false} AddJobsKeeps(jobs: map<Seg, Job>, rec: Recording, cuts: seq<PcmBuffers.Cut>, e: Answers,
                                        x: Seg)
    requires forall i: nat :: Seg(rec.meeting, e.uuid(i)) !in jobs
    requires x in jobs
    ensures x in AddJobs(jobs, rec, cuts, e) && AddJobs(jobs, rec, cuts, e)[x] == jobs[x]
  {
    if cuts != [] {
      AddJobsKeeps(jobs, rec, cuts[..|cuts| - 1], e, x);
      assert x != Seg(rec.meeting, e.uuid(|cuts| - 1));
    }
  }

  lemma {:induction false} AddJobsHolds(jobs: map<Seg, Job>, rec: Recording, cuts: seq<PcmBuffers.Cut>, e: Answers,
                                        k: nat)
    requires Distinct(e)
    requires k < |cuts|
    ensures var seg := Seg(rec.meeting, e.uuid(k));
      seg in AddJobs(jobs, rec, cuts, e) && AddJobs(jobs, rec, cuts, e)[seg] == JobOf(rec, cuts[k], false)
  {
    var n := |cuts| - 1;
    if k < n {
      AddJobsHolds(jobs, rec, cuts[..n], e, k);
      assert e.uuid(k) != e.uuid(n);
    }
  }

  /** Each cut becomes one store task of its own, and the tasks already there stay. */
  lemma AddJobsOneEach(jobs: map<Seg, Job>, rec: Recording, cuts: seq<PcmBuffers.Cut>, e: Answers, k: nat)
    requires Distinct(e)
    requires forall i: nat :: Seg(rec.meeting, e.uuid(i)) !in jobs
    requires k < |cuts|
    ensures var after, seg := AddJobs(jobs, rec, cuts, e), Seg(rec.meeting, e.uuid(k));
      && |after.Keys| == |jobs.Keys| + |cuts| && (forall x :: x in jobs ==> x in after && after[x] == jobs[x])
      && seg in after && after[seg] == Job(rec, cuts[k].user, cuts[k].pcm, cuts[k].start, cuts[k].last, false)
  {
    AddJobsCount(jobs, rec, cuts, e);
    forall x | x in jobs
      ensures x in AddJobs(jobs, rec, cuts, e) && AddJobs(jobs, rec, cuts, e)[x] == jobs[x]
    {
      AddJobsKeeps(jobs, rec, cuts, e, x);
    }
    AddJobsHolds(jobs, rec, cuts, e, k);
  }

  /** `drain_all` yielded some cuts and emptied the buffer. The quantifier keeps this folded. */
  ghost predicate Drained(before: PcmBuffers.Buffer, after: PcmBuffers.Buffer, cuts: seq<PcmBuffers.Cut>, now: int) {
    forall b :: b == before ==>
      after == PcmBuffers.Popped(b, None, now) && cuts == PcmBuffers.CutsFrom(b, b.keys, None, now)
  }

  /** Then nothing is left in the buffer, and each user's sound is in the cuts. */
  lemma DrainedEmpties(before: PcmBuffers.Buffer, after: PcmBuffers.Buffer, cuts: seq<PcmBuffers.Cut>, now: int,
                       u: PcmBuffers.User)
    requires PcmBuffers.WellFormed(before) && Drained(before, after, cuts, now)
    ensures PcmBuffers.Live(after, u) == [] && Segmentation.BytesCut(cuts, u) == PcmBuffers.Live(before, u)
  {
    assert after == PcmBuffers.Popped(before, None, now);
    Segmentation.PassTakesAll(before, None, now, u);
    assert Segmentation.BytesCut(cuts, u) + [] == Segmentation.BytesCut(cuts, u);
  }

  /** The files of a segment when `writes` of the four operations on them succeeded. */
  function JsonAfter(json: map<Seg, Sidecar>, seg: Seg, meta: Meta, writes: nat): map<Seg, Sidecar> {
    if writes == 0 then json else if writes == 1 then json[seg := Torn] else json[seg := Whole(meta)]
  }

  function WavAfter(wav: map<Seg, Audio>, seg: Seg, pcm: seq<Byte>, writes: nat): map<Seg, Audio> {
    if writes <= 2 then wav else if writes == 3 then wav[seg := Partial] else wav[seg := Downmix(pcm)]
  }

  /** The jobs and leaves that an exception in the store of a segment ends. The quantifier keeps this folded. */
  ghost predicate Abandons(seg: Seg, before: map<Seg, Job>, leaving: map<nat, Leaving>, jobs: map<Seg, Job>,
                           leaves: map<nat, Leaving>)
    requires seg in before
  {
    forall b: map<Seg, Job> {:trigger LeaveJobs(b, seg.meeting)} :: b == before ==>
      if b[seg].inLeave then jobs == b - LeaveJobs(b, seg.meeting) && leaves == leaving - {seg.meeting}
      else jobs == b - {seg} && leaves == leaving
  }

  /** Whether storing goes through: the sound is too short, or all is written. */
  predicate Stores(pcm: seq<Byte>, writes: nat) { TooShort(pcm) || writes >= 4 }

  /** The files of the pending directory. */
  datatype FilePair = FilePair(json: map<Seg, Sidecar>, wav: map<Seg, Audio>)

  function AfterStore(f: FilePair, rec: Recording, cuts: seq<PcmBuffers.Cut>, e: Answers, n: nat): FilePair
    requires n < |cuts|
  {
    var seg := Seg(rec.meeting, e.uuid(n));
    if TooShort(cuts[n].pcm) then f
    else
      FilePair(JsonAfter(f.json, seg, MetaOf(seg, JobOf(rec, cuts[n], true), e.speaker(n)), e.writes(n)),
            WavAfter(f.wav, seg, cuts[n].pcm, e.writes(n)))
  }

  /** The directory after `leave` tried to store the first `k` cuts. */
  function AfterStores(f: FilePair, rec: Recording, cuts: seq<PcmBuffers.Cut>, e: Answers, k: nat): FilePair
    requires k <= |cuts|
  {
    if k == 0 then f else AfterStore(AfterStores(f, rec, cuts, e, k - 1), rec, cuts, e, k - 1)
  }

  /** A `leave` tried `k` of its cuts, and went through all of them or failed at the last one tried. */
  ghost predicate StoredUpTo(before: FilePair, after: FilePair, rec: Recording, cuts: seq<PcmBuffers.Cut>, e: Answers,
                             k: nat, ok: bool)
  {
    && k <= |cuts| && (ok ==> k == |cuts|) && Tried(cuts, e, k, ok)
    && StoredFirst(before, after, rec, cuts, e, k)
  }

  /** In the middle of that. The quantifier keeps this folded in the loop. */
  ghost predicate Underway(before: FilePair, now: FilePair, hist: Hist, rec: Recording, cuts: seq<PcmBuffers.Cut>,
                           e: Answers, i: nat, ok: bool)
  {
    forall c: seq<PcmBuffers.Cut> {:trigger |c|} :: c == cuts ==>
      && i <= |c| && Tried(c, e, i, ok) && StoredFirst(before, now, rec, c, e, i) && FreshFrom(hist, rec.meeting, e, i)
  }

  /** The last cut tried is the one that could not be stored, if any. */
  ghost predicate Tried(cuts: seq<PcmBuffers.Cut>, e: Answers, k: nat, ok: bool) {
    !ok ==> 0 < k <= |cuts| && !Stores(cuts[k - 1].pcm, e.writes(k - 1))
  }

  /** Here and in `Tally`, the quantifier keeps proofs that only pass the fact on from unfolding it. */
  ghost predicate StoredFirst(before: FilePair, after: FilePair, rec: Recording, cuts: seq<PcmBuffers.Cut>, e: Answers,
                              k: nat)
    requires k <= |cuts|
  {
    forall f :: f == before ==> after == AfterStores(f, rec, cuts, e, k)
  }

  lemma NoneTried(f: FilePair, hist: Hist, rec: Recording, cuts: seq<PcmBuffers.Cut>, e: Answers)
    requires FreshNames(hist, rec.meeting, e)
    ensures Underway(f, f, hist, rec, cuts, e, 0, true)
  {}

  lemma NextIsFresh(start: FilePair, now: FilePair, hist: Hist, rec: Recording, cuts: seq<PcmBuffers.Cut>, e: Answers,
                    i: nat)
    requires Underway(start, now, hist, rec, cuts, e, i, true)
    ensures Seg(rec.meeting, e.uuid(i)) !in hist.cuts
  {
    assert i <= |cuts|;
  }

  lemma OneMoreTried(start: FilePair, before: FilePair, now: FilePair, was: Hist, hist: Hist, rec: Recording,
                     cuts: seq<PcmBuffers.Cut>, e: Answers, i: nat)
    requires i < |cuts| && Distinct(e) && Underway(start, before, was, rec, cuts, e, i, true)
    requires now == AfterStore(before, rec, cuts, e, i)
    requires hist.cuts.Keys == was.cuts.Keys + {Seg(rec.meeting, e.uuid(i))}
    ensures Underway(start, now, hist, rec, cuts, e, i + 1, Stores(cuts[i].pcm, e.writes(i)))
  {
    assert before == AfterStores(start, rec, cuts, e, i);
  }

  lemma AllTried(start: FilePair, now: FilePair, hist: Hist, rec: Recording, cuts: seq<PcmBuffers.Cut>, e: Answers,
                 i: nat, ok: bool)
    requires Underway(start, now, hist, rec, cuts, e, i, ok) && (ok ==> i >= |cuts|)
    ensures StoredUpTo(start, now, rec, cuts, e, i, ok)
  {}

  /** What one pass does to the head of the queue. */
  ghost predicate HeadStays(disk: Disk, head: Seg, p: Pass) {
    p.unlinks < 2 || (Readable(disk, head) && p.readOk && Refused(p))
  }

  /** The `.wav` files after it. */
  ghost function AudioAfter(disk: Disk, head: Seg, p: Pass): map<Seg, Audio> {
    if p.unlinks == 0 || (Readable(disk, head) && p.readOk && Refused(p)) then disk.wav else disk.wav - {head}
  }

  /** How a pass that leaves the head ends. */
  ghost function Ends(disk: Disk, head: Seg, p: Pass): Outcome {
    if Readable(disk, head) && p.readOk && p.reply.None? then Failing else Raised
  }

  ghost function RowsAfter(disk: Disk, before: seq<Row>, head: Seg, p: Pass): seq<Row> {
    if Readable(disk, head) && p.readOk && p.reply.Some? && p.reply.value != "" && p.insertOk
    then before + [Row(head, disk.json[head].meta, p.reply.value)]
    else before
  }

  /** What `drain_loop` did in its first `k` passes. */
  ghost predicate Tally(before: Disk, now: Disk, passes: seq<Pass>, k: nat, removed: nat, stayed: nat, idle: nat)
    requires k <= |passes|
  {
    && removed + stayed + idle == k && |now.json| + removed == |before.json| && now.json.Keys <= before.json.Keys
    && (idle > 0 ==> now.json == map[])
    && forall ps {:trigger CountUnlucky(ps)} :: ps == passes[..k] ==>
        && stayed <= CountUnlucky(ps)
        && (AllReadable(before) && PairsGo(ps) ==> AllReadable(now) && (idle == 0 ==> stayed == CountUnlucky(ps)))
  }

  /** One pass. */
  ghost predicate Turn(before: Disk, now: Disk, p: Pass, removed: nat, stayed: nat, idle: nat) {
    && removed + stayed + idle == 1 && stayed <= (if Unlucky(p) then 1 else 0)
    && |now.json| + removed == |before.json| && now.json.Keys <= before.json.Keys
    && (idle > 0 <==> before.json == map[]) && (stayed > 0 ==> now.json != map[])
    && (AllReadable(before) && p.unlinks != 1 ==>
          AllReadable(now) && (idle == 0 ==> stayed == if Unlucky(p) then 1 else 0))
  }

  lemma TallyNext(start: Disk, before: Disk, now: Disk, passes: seq<Pass>, k: nat, removed: nat, stayed: nat, idle: nat,
                  r: nat, s: nat, i: nat)
    requires k < |passes| && Tally(start, before, passes, k, removed, stayed, idle)
    requires Turn(before, now, passes[k], r, s, i)
    ensures Tally(start, now, passes, k + 1, removed + r, stayed + s, idle + i)
  {
    assert passes[..k + 1][..k] == passes[..k];
    assert CountUnlucky(passes[..k + 1]) == CountUnlucky(passes[..k]) + if Unlucky(passes[k]) then 1 else 0;
  }

  /** Drain progress. As long as no pass was idle, the queue is empty exactly when there were as many passes as pending
      segments plus failed passes; and if all their files are there, and none lost its `.wav` only, the failed passes
      are exactly those in which the worker, a statement or an unlinking failed. One pass more is idle, and an idle pass
      finds the queue empty. */
  lemma DrainProgress(before: Disk, after: Disk, passes: seq<Pass>, removed: nat, stayed: nat, idle: nat)
    requires Tally(before, after, passes, |passes|, removed, stayed, idle)
    ensures idle == 0 ==> (after.json == map[] <==> |passes| == |before.json| + stayed)
    ensures idle == 0 && AllReadable(before) && PairsGo(passes) ==> stayed == CountUnlucky(passes)
    ensures |passes| > |before.json| + CountUnlucky(passes) ==> idle > 0
    ensures idle > 0 ==> after.json == map[]
    ensures removed == |before.json| - |after.json| && stayed <= CountUnlucky(passes)
  {
    assert passes[..|passes|] == passes;
    assert stayed <= CountUnlucky(passes);
  }

  /** A meeting has pending files exactly if its decimal is among the prefixes. */
  ghost predicate Decides(json: map<Seg, Sidecar>, prefixes: set<string>) {
    forall m :: Names.Decimal(m) in prefixes <==> PendingIn(json, m)
  }

  lemma PrefixesDecide(s: State)
    ensures Decides(s.disk.json, PendingPrefixes(s.disk.json))
  {
    forall m ensures Names.Decimal(m) in PendingPrefixes(s.disk.json) <==> PendingIn(s.disk.json, m) {
      PrefixTest(s, m);
    }
  }

  /** What a finalization pass did so far: it completed and unmarked some meetings, and created a webhook task for each
      that has a row and where that did not fail. */
  ghost predicate Passed(start: State, now: State, d: nat, pc: Pc, done: set<nat>, hookFails: iset<nat>) {
    && now == start.(disk := start.disk.(marks := start.disk.marks - done),
                     db := start.db.(meetings := CompleteAll(start.db.meetings, done)),
                     mem := WithPc(start.mem, d, pc),
                     hist := start.hist.(hooks := now.hist.hooks))
    && forall m :: m in now.hist.hooks <==>
        m in start.hist.hooks || (m in done && m !in hookFails && m in start.db.meetings)
  }

  lemma PassedNone(start: State, d: nat)
    ensures d in start.mem.drainers ==>
      forall hookFails :: Passed(start, start, d, start.mem.drainers[d], {}, hookFails)
  {
    CompleteNone(start.db.meetings);
  }

  lemma PassedMore(start: State, mid: State, now: State, d: nat, p: Pc, q: Pc, done: set<nat>, more: set<nat>,
                   hookFails: iset<nat>)
    requires Passed(start, mid, d, p, done, hookFails) && Passed(mid, now, d, q, more, hookFails)
    ensures Passed(start, now, d, q, done + more, hookFails)
  {
    CompleteMore(start.db.meetings, done, more);
    assert start.disk.marks - done - more == start.disk.marks - (done + more);
    assert start.mem.drainers[d := p][d := q] == start.mem.drainers[d := q];
  }

  /** Of the first `k` ids listed, exactly those without pending files are done. */
  ghost predicate DoneUpTo(json: map<Seg, Sidecar>, fms: seq<nat>, k: nat, done: set<nat>)
    requires k <= |fms|
  {
    forall m :: m in done <==> m in fms[..k] && !PendingIn(json, m)
  }

  lemma DoneNext(json: map<Seg, Sidecar>, fms: seq<nat>, k: nat, done: set<nat>)
    requires k < |fms| && DoneUpTo(json, fms, k, done)
    ensures DoneUpTo(json, fms, k + 1, done + if PendingIn(json, fms[k]) then {} else {fms[k]})
  {
    assert fms[..k + 1] == fms[..k] + [fms[k]];
  }

  /** Each cut that `leave` stored in full is either too short, and leaves no file, or has both its files, and the
      sidecar says when it was spoken, since the start of the recording. */
  lemma {:induction false} LeaveStoresEach(f: FilePair, rec: Recording, cuts: seq<PcmBuffers.Cut>, e: Answers, n: nat,
                                           k: nat)
    requires k < n <= |cuts| && Stores(cuts[k].pcm, e.writes(k)) && Distinct(e)
    ensures var seg, after := Seg(rec.meeting, e.uuid(k)), AfterStores(f, rec, cuts, e, n);
      if |cuts[k].pcm| < 76_800 then (seg in after.json <==> seg in f.json) && (seg in after.wav <==> seg in f.wav)
      else
        && seg in after.json && after.json[seg] == Whole(
             Meta(rec.meeting, rec.session, e.speaker(k), cuts[k].start - rec.base, cuts[k].last - rec.base))
        && seg in after.wav && after.wav[seg] == Downmix(cuts[k].pcm)
  {
    if k < n - 1 {
      LeaveStoresEach(f, rec, cuts, e, n - 1, k);
      assert e.uuid(k) != e.uuid(n - 1);
    } else {
      StoresOnlyThose(f, rec, cuts, e, k, k);
    }
  }

  lemma {:induction false} StoresOnlyThose(f: FilePair, rec: Recording, cuts: seq<PcmBuffers.Cut>, e: Answers, n: nat,
                                           k: nat)
    requires n <= k && n <= |cuts| && Distinct(e)
    ensures var seg, after := Seg(rec.meeting, e.uuid(k)), AfterStores(f, rec, cuts, e, n);
      (seg in after.json <==> seg in f.json) && (seg in after.wav <==> seg in f.wav)
  {
    if n > 0 {
      StoresOnlyThose(f, rec, cuts, e, n - 1, k);
      assert e.uuid(k) != e.uuid(n - 1);
    }
  }

  lemma OnlyLeaveJob(before: map<Seg, Job>, seg: Seg, job: Job)
    requires LeaveJobs(before, seg.meeting) == {} && job.inLeave && seg !in before
    ensures LeaveJobs(before[seg := job], seg.meeting) == {seg}
    ensures before[seg := job] - {seg} == before
  {
    assert forall x :: x in before && before[x].inLeave && x.meeting == seg.meeting ==>
        x in LeaveJobs(before, seg.meeting);
  }

  lemma JobsAreCuts(s: State, acts: seq<Action>)
    requires Leads(acts, s)
    ensures s.mem.jobs.Keys <= s.hist.cuts.Keys
  {
    assert Run(INIT, acts) == Some(s);
    ReachableInv(s);
  }

  lemma NoLeaveJobs(s: State, acts: seq<Action>, guild: Guild)
    requires Leads(acts, s) && guild in s.mem.active
    ensures LeaveJobs(s.mem.jobs, s.mem.active[guild].meeting) == {}
  {
    assert Run(INIT, acts) == Some(s);
    ReachableInv(s);
  }

  lemma Stamps(s: State, acts: seq<Action>)
    requires Leads(acts, s)
    ensures s.disk.json.Keys <= s.hist.mtime.Keys
  {
    assert Run(INIT, acts) == Some(s);
    ReachableInv(s);
  }

  lemma UnlinkSteps(s: State, t: State, pc: Pc)
    requires s.mem.cpu.Deleting? && t.db == s.db && t.hist == s.hist
    requires var Deleting(d, seg, thenFinalize) := s.mem.cpu;
      && (if thenFinalize then StartsPass(pc, t.disk) else pc.Top?)
      && t.disk == s.disk.(json := s.disk.json - {seg}) && t.mem == WithPc(s.mem, d, pc).(cpu := Free)
    ensures Steps(s, UnlinkJson, t)
  {
    var Deleting(d, seg, thenFinalize) := s.mem.cpu;
    assert thenFinalize ==> pc == FinalizeStart(t.disk);
  }

  lemma UnmarkSteps(s: State, d: nat, hook: bool)
    requires s.mem.cpu.Free? && d in s.mem.drainers && s.mem.drainers[d].Unmarking?
    ensures Steps(s, Unmark(d, hook), UnmarkStep(s, d, hook).value)
  {}

  lemma FailSteps(s: State, seg: Seg)
    requires s.mem.cpu.Spilling? && s.mem.cpu.seg == seg && seg in s.mem.jobs
    ensures var t := Pipeline.FailStore(s, seg); Steps(s, SpillFail, t.(mem := t.mem.(cpu := Free)))
  {}

  lemma StoreFailSteps(s: State, seg: Seg)
    requires s.mem.cpu.Free? && seg in s.mem.jobs && !TooShort(s.mem.jobs[seg].pcm)
    ensures Steps(s, StoreFail(seg), Pipeline.FailStore(s, seg))
  {}

  lemma MarkSteps(s: State, m: nat, d: nat)
    requires s.mem.cpu.Free? && m in s.mem.leaves && !s.mem.leaves[m].connected
    requires LeaveJobs(s.mem.jobs, m) == {} && FreshDrainer(s.mem, d)
    ensures Steps(s, LeaveMark(m, d),
      s.(disk := s.disk.(marks := s.disk.marks + {m}),
         mem := WithDrainer(s.mem, d).(leaves := s.mem.leaves - {m}),
         hist := s.hist.(left := s.hist.left + {m},
                         dirty := if LongJobs(s.mem.jobs, m) == {} then s.hist.dirty else s.hist.dirty + {m})))
  {}

  lemma UpSteps(s: State, j: nat, d: nat)
    requires s.mem.cpu.Free? && j in s.mem.joins && s.mem.joins[j].Inserted? && FreshDrainer(s.mem, d)
    ensures var rec := s.mem.joins[j].rec;
      Steps(s, JoinUp(j, d), s.(mem := WithDrainer(s.mem, d).(active := s.mem.active[rec.channel.guild := rec],
                                                              joins := s.mem.joins - {j})))
  {}

  lemma OpenSteps(s: State, seg: Seg, speaker: string, stamp: int)
    requires s.mem.cpu.Free? && SpillOpenStep(s, seg, speaker, stamp).Some?
    ensures Steps(s, SpillOpen(seg, speaker, stamp), SpillOpenStep(s, seg, speaker, stamp).value)
  {}

  lemma CompleteNone(meetings: map<nat, MeetingRow>)
    ensures CompleteAll(meetings, {}) == meetings
  {}

  lemma CompleteMore(meetings: map<nat, MeetingRow>, done: set<nat>, more: set<nat>)
    ensures CompleteAll(CompleteAll(meetings, done), more) == CompleteAll(meetings, done + more)
  {}

  /** The table after completing a set of meetings. */
  function CompleteAll(meetings: map<nat, MeetingRow>, done: set<nat>): map<nat, MeetingRow> {
    map m | m in meetings :: if m in done then meetings[m].(status := Completed) else meetings[m]
  }
}
