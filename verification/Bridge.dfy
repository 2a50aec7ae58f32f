/**
 The coroutines of bot.py, run from end to end without interference, as methods that change the directory,
 the tables and memory in place. `Valid` says that what they did to these is a run of `Pipeline`, so every
 theorem about its runs holds of them, and holds at each point where another coroutine or a crash could cut in.
 */
module Bridge {
  import opened Bytes
  import opened Wrappers
  import opened Pipeline
  import opened PipelineInvariant
  import opened BridgeSpec
  import PcmBuffers
  import CompletionSafety
  import StatusMachine
  import Names

  class Bridge {
    // the pending directory, with the modification times of its sidecars
    var json: map<Seg, Sidecar>
    var wav: map<Seg, Audio>
    var mtime: map<Seg, int>
    var marks: set<nat>
    // the tables
    var meetings: map<nat, MeetingRow>
    var rows: seq<Row>
    // memory
    var active: map<Guild, Recording>
    var joins: map<nat, Join>
    var leaves: map<nat, Leaving>
    var voice: set<Guild>
    var sinks: map<Guild, PcmBuffers.PcmBuffer>
    var jobs: map<Seg, Job>
    var drainTask: Option<nat>
    var pcs: map<nat, Pc>      // the drain tasks alive, and where each is suspended
    // control: what runs now, and the run so far
    ghost var cpu: Cpu
    ghost var hist: Hist
    ghost var trace: seq<Action>

    ghost function View(): State
      reads this
    {
      State(Disk(json, wav, marks), Db(meetings, rows),
            Mem(active, joins, leaves, voice, jobs, pcs, drainTask, cpu), hist)
    }

    ghost predicate Valid()
      reads this
    {
      Leads(trace, View()) && mtime == hist.mtime
    }

    /** `Valid`, and no coroutine is in the middle of await-free code. */
    ghost predicate Ready()
      reads this
    {
      Valid() && cpu.Free?
    }

    constructor ()
      ensures Ready() && trace == []
    {
      json, wav, mtime, marks := map[], map[], map[], {};
      meetings, rows := map[], [];
      active, joins, leaves, voice, sinks := map[], map[], map[], {}, map[];
      jobs, drainTask := map[], None;
      pcs, cpu, hist, trace := map[], Free, INIT.hist, [];
    }

    /** Bookkeeping: the fields now hold the state after one more step. */
    ghost method Record(before: State, a: Action)
      requires Leads(trace, before) && Steps(before, a, View())
      requires mtime == hist.mtime
      modifies `trace
      ensures Valid() && trace == old(trace) + [a]
    {
      assert Run(INIT, trace) == Some(before) && Next(before, a) == Some(View());
      RunAppend(INIT, trace, [a]);
      CompletionSafety.RunCons(before, a, []);
      trace := trace + [a];
    }

    /** Create the `.json` of a segment. */
    method CreateSidecar(seg: Seg, meta: Meta, stamp: int)
      requires Ready() && seg in jobs && !TooShort(jobs[seg].pcm) && meta == MetaOf(seg, jobs[seg], meta.speaker)
      modifies `json, `mtime, `cpu, `hist, `trace
      ensures Valid() && old(trace) <= trace && cpu == Spilling(seg, meta, 0) && json == old(json)[seg := Torn]
      ensures hist.cuts == old(hist.cuts)
    {
      ghost var s0 := View();
      json, mtime := json[seg := Torn], mtime[seg := stamp];
      cpu := Spilling(seg, meta, 0);
      hist := hist.(order := hist.order + [seg], mtime := mtime,
                    named := hist.named + {(seg.meeting, jobs[seg].user, meta.speaker)});
      OpenSteps(s0, seg, meta.speaker, stamp);
      Record(s0, SpillOpen(seg, meta.speaker, stamp));
    }

    /** Write the `.json` of a segment. */
    method WriteSidecar(seg: Seg, meta: Meta)
      requires Valid() && cpu == Spilling(seg, meta, 0) && seg in jobs
      modifies `json, `cpu, `trace
      ensures Valid() && old(trace) <= trace && cpu == Spilling(seg, meta, 1) && json == old(json)[seg := Whole(meta)]
    {
      ghost var s0 := View();
      json, cpu := json[seg := Whole(meta)], Spilling(seg, meta, 1);
      Record(s0, SpillNext);
    }

    /** Create the `.wav` of a segment whose `.json` is written. */
    method CreateAudio(seg: Seg, ghost meta: Meta)
      requires Valid() && cpu == Spilling(seg, meta, 1) && seg in jobs
      modifies `wav, `cpu, `trace
      ensures Valid() && old(trace) <= trace && cpu == Spilling(seg, meta, 2) && wav == old(wav)[seg := Partial]
    {
      ghost var s0 := View();
      wav, cpu := wav[seg := Partial], Spilling(seg, meta, 2);
      Record(s0, SpillNext);
    }

    /** Write the `.wav` of a segment. */
    method WriteAudio(seg: Seg, ghost meta: Meta)
      requires Valid() && cpu == Spilling(seg, meta, 2) && seg in jobs
      modifies `wav, `jobs, `cpu, `hist, `trace
      ensures Ready() && old(trace) <= trace && hist.cuts == old(hist.cuts)
      ensures wav == old(wav)[seg := Downmix(old(jobs)[seg].pcm)] && jobs == old(jobs) - {seg}
    {
      ghost var s0 := View();
      wav, jobs := wav[seg := Downmix(jobs[seg].pcm)], jobs - {seg};
      cpu, hist := Free, hist.(spilled := hist.spilled + {seg});
      Record(s0, SpillNext);
    }

    /** An operation on the files fails; so does a `/leave` that awaits the store. */
    method FailSpill(seg: Seg)
      requires Valid() && cpu.Spilling? && cpu.seg == seg && seg in jobs
      modifies `jobs, `leaves, `cpu, `hist, `trace
      ensures Ready() && old(trace) <= trace && hist.cuts == old(hist.cuts)
      ensures Abandons(seg, old(jobs), old(leaves), jobs, leaves)
    {
      ghost var s0 := View();
      Abandon(seg);
      cpu := Free;
      FailSteps(s0, seg);
      Record(s0, SpillFail);
    }

    /** The store fails before there is a file. */
    method FailStore(seg: Seg)
      requires Ready() && seg in jobs && !TooShort(jobs[seg].pcm)
      modifies `jobs, `leaves, `cpu, `hist, `trace
      ensures Ready() && old(trace) <= trace && hist.cuts == old(hist.cuts)
      ensures Abandons(seg, old(jobs), old(leaves), jobs, leaves)
    {
      ghost var s0 := View();
      Abandon(seg);
      StoreFailSteps(s0, seg);
      Record(s0, StoreFail(seg));
    }

    /** What an exception in `store` takes with it. */
    method Abandon(seg: Seg)
      requires seg in jobs
      modifies `jobs, `leaves, `hist
      ensures View() == Pipeline.FailStore(old(View()), seg) && hist.mtime == old(hist.mtime)
      ensures hist.cuts == old(hist.cuts) && Abandons(seg, old(jobs), old(leaves), jobs, leaves)
    {
      if jobs[seg].inLeave {
        ghost var gone := LeaveJobs(jobs, seg.meeting);
        jobs, leaves := jobs - LeaveJobs(jobs, seg.meeting), leaves - {seg.meeting};
        hist := hist.(lost := hist.lost + gone);
      } else {
        jobs, hist := jobs - {seg}, hist.(lost := hist.lost + {seg});
      }
    }

    /** The `.json`, as far as it gets. */
    method SpillSidecar(seg: Seg, meta: Meta, stamp: int, writes: nat) returns (ok: bool)
      requires Ready() && seg in jobs && !TooShort(jobs[seg].pcm) && meta == MetaOf(seg, jobs[seg], meta.speaker)
      requires writes > 0
      modifies `json, `mtime, `jobs, `leaves, `cpu, `hist, `trace
      ensures old(trace) <= trace && hist.cuts == old(hist.cuts) && ok == (writes >= 2)
      ensures json == JsonAfter(old(json), seg, meta, writes)
      ensures if ok then Valid() && cpu == Spilling(seg, meta, 1) && jobs == old(jobs) && leaves == old(leaves)
              else Ready() && Abandons(seg, old(jobs), old(leaves), jobs, leaves)
    {
      ok := writes >= 2;
      CreateSidecar(seg, meta, stamp);
      if ok {
        WriteSidecar(seg, meta);
      } else {
        FailSpill(seg);
      }
    }

    /** The `.wav`, as far as it gets. */
    method SpillAudio(seg: Seg, ghost meta: Meta, writes: nat) returns (ok: bool)
      requires Valid() && cpu == Spilling(seg, meta, 1) && seg in jobs && writes >= 2
      modifies `wav, `jobs, `leaves, `cpu, `hist, `trace
      ensures Ready() && old(trace) <= trace && hist.cuts == old(hist.cuts) && ok == (writes >= 4)
      ensures wav == WavAfter(old(wav), seg, old(jobs)[seg].pcm, writes)
      ensures if ok then jobs == old(jobs) - {seg} && leaves == old(leaves)
              else Abandons(seg, old(jobs), old(leaves), jobs, leaves)
    {
      ok := writes >= 4;
      if writes > 2 {
        CreateAudio(seg, meta);
      }
      if ok {
        WriteAudio(seg, meta);
      } else {
        FailSpill(seg);
      }
    }

    /** `spill_segment`: the sidecar first, then the audio; any of the four file operations may raise. */
    method SpillSegment(seg: Seg, speaker: string, stamp: int, writes: nat) returns (ok: bool)
      requires Ready() && seg in jobs && !TooShort(jobs[seg].pcm)
      modifies `json, `mtime, `wav, `jobs, `leaves, `cpu, `hist, `trace
      ensures Ready() && old(trace) <= trace && hist.cuts == old(hist.cuts) && ok == (writes >= 4)
      ensures var job := old(jobs)[seg];
        json == JsonAfter(old(json), seg,
                          Meta(seg.meeting, job.rec.session, speaker, job.t0 - job.rec.base, job.t1 - job.rec.base),
                          writes)
      ensures wav == WavAfter(old(wav), seg, old(jobs)[seg].pcm, writes)
      ensures if ok then jobs == old(jobs) - {seg} && leaves == old(leaves)
              else Abandons(seg, old(jobs), old(leaves), jobs, leaves)
    {
      if writes == 0 {
        FailStore(seg);
        return false;
      }
      var meta := MetaOf(seg, jobs[seg], speaker);
      ok := SpillSidecar(seg, meta, stamp, writes);
      if ok {
        ok := SpillAudio(seg, meta, writes);
      }
    }

    /** `store`: drop what is shorter than the minimum, spill the rest. */
    method Store(seg: Seg, speaker: string, stamp: int, writes: nat) returns (ok: bool)
      requires Ready() && seg in jobs
      modifies `json, `mtime, `wav, `jobs, `leaves, `cpu, `hist, `trace
      ensures Ready() && old(trace) <= trace && hist.cuts == old(hist.cuts)
      ensures ok == Stores(old(jobs)[seg].pcm, writes)
      ensures if ok then jobs == old(jobs) - {seg} && leaves == old(leaves)
              else Abandons(seg, old(jobs), old(leaves), jobs, leaves)
      ensures var job := old(jobs)[seg];
        if |job.pcm| < 76_800 then json == old(json) && wav == old(wav)
        else
          && json == JsonAfter(
               old(json), seg,
               Meta(seg.meeting, job.rec.session, speaker, job.t0 - job.rec.base, job.t1 - job.rec.base), writes)
          && wav == WavAfter(old(wav), seg, job.pcm, writes)
    {
      if TooShort(jobs[seg].pcm) {
        ghost var s0 := View();
        jobs, hist := jobs - {seg}, hist.(short := hist.short + {seg});
        Record(s0, DropShort(seg));
        ok := true;
      } else {
        ok := SpillSegment(seg, speaker, stamp, writes);
      }
    }

    /** `create_task(store(...))` for one cut. */
    method StartStore(guild: Guild, c: PcmBuffers.Cut, uuid: string)
      requires Ready() && guild in active && Seg(active[guild].meeting, uuid) !in hist.cuts
      modifies `jobs, `hist, `trace
      ensures Ready() && old(trace) <= trace
      ensures var seg, job := Seg(active[guild].meeting, uuid), JobOf(active[guild], c, false);
        jobs == old(jobs)[seg := job] && hist == old(hist).(cuts := old(hist.cuts)[seg := job])
    {
      var seg, job := Seg(active[guild].meeting, uuid), JobOf(active[guild], c, false);
      ghost var s0 := View();
      jobs, hist := jobs[seg := job], hist.(cuts := hist.cuts[seg := job]);
      Record(s0, Cut(guild, uuid, c.user, c.pcm, c.start, c.last));
    }

    /** A store task for each of some cuts. */
    method StartStores(guild: Guild, cuts: seq<PcmBuffers.Cut>, e: Answers)
      requires Ready() && guild in active && FreshNames(hist, active[guild].meeting, e)
      modifies `jobs, `hist, `trace
      ensures Ready() && old(trace) <= trace && jobs == AddJobs(old(jobs), active[guild], cuts, e)
    {
      var k := 0;
      assert cuts[..0] == [];
      while k < |cuts|
        invariant k <= |cuts| && Ready() && old(trace) <= trace
        invariant jobs == AddJobs(old(jobs), active[guild], cuts[..k], e)
        invariant FreshFrom(hist, active[guild].meeting, e, k)
      {
        StartStore(guild, cuts[k], e.uuid(k));
        assert cuts[..k + 1][..k] == cuts[..k];
        k := k + 1;
      }
      assert cuts[..k] == cuts;
    }

    /** One turn of `flusher`: a store task for each segment that `drain_ready` says a gap has ended. */
    method Flush(guild: Guild, silence: int, now: int, e: Answers)
      requires Ready() && guild in active && FreshNames(hist, active[guild].meeting, e)
      requires guild in sinks && PcmBuffers.WellFormed(sinks[guild].View())
      modifies `jobs, `hist, `trace, sinks[guild]
      ensures Ready() && old(trace) <= trace
      ensures var b := old(sinks[guild].View());
        && sinks[guild].View() == PcmBuffers.Popped(b, Some(silence), now)
        && jobs == AddJobs(old(jobs), active[guild], PcmBuffers.CutsFrom(b, b.keys, Some(silence), now), e)
    {
      var cuts := sinks[guild].DrainReady(silence, now);
      StartStores(guild, cuts, e);
    }

    /** `_drain_task` is replaced if there is none or it is done. */
    method Revive(d: nat)
      modifies `drainTask, `pcs
      ensures View().mem == WithDrainer(old(View().mem), d)
      ensures drainTask.Some? && drainTask.value in pcs
      ensures if old(drainTask).Some? && old(drainTask).value in old(pcs)
              then drainTask == old(drainTask) && pcs == old(pcs)
              else drainTask == Some(d) && pcs == old(pcs)[d := Top]
    {
      if drainTask.None? || drainTask.value !in pcs {
        drainTask, pcs := Some(d), pcs[d := Top];
      }
    }

    /** `ensure_drain_loop`: a new task only if there is none or the last one is done. */
    method EnsureDrainLoop(d: nat)
      requires Ready() && d !in pcs && drainTask != Some(d)
      modifies `drainTask, `pcs, `trace
      ensures Ready() && old(trace) <= trace
      ensures drainTask.Some? && drainTask.value in pcs
      ensures if old(drainTask).Some? && old(drainTask).value in old(pcs)
              then drainTask == old(drainTask) && pcs == old(pcs)
              else drainTask == Some(d) && pcs == old(pcs)[d := Top]
    {
      ghost var s0 := View();
      Revive(d);
      Record(s0, EnsureDrain(d));
    }

    /** `scan_pending`: the sidecars, oldest first. */
    method ScanPending() returns (items: seq<Seg>)
      requires json.Keys <= mtime.Keys
      ensures forall seg :: seg in items <==> seg in json
      ensures forall i, j :: 0 <= i < j < |items| ==> items[i] != items[j] && mtime[items[i]] <= mtime[items[j]]
    {
      items := [];
      var rest := json.Keys;
      while rest != {}
        invariant rest <= json.Keys
        invariant forall i :: 0 <= i < |items| ==> items[i] in json && items[i] !in rest
        invariant forall seg :: seg in json ==> seg in items || seg in rest
        invariant forall i, j :: 0 <= i < j < |items| ==> items[i] != items[j] && mtime[items[i]] <= mtime[items[j]]
        invariant forall i, x :: 0 <= i < |items| && x in rest ==> mtime[items[i]] <= mtime[x]
        decreases |rest|
      {
        var oldest :| oldest in rest;
        var todo := rest - {oldest};
        while todo != {}
          invariant todo <= rest && oldest in rest
          invariant forall x :: x in rest - todo ==> mtime[oldest] <= mtime[x]
          decreases |todo|
        {
          var x :| x in todo;
          if mtime[x] < mtime[oldest] {
            oldest := x;
          }
          todo := todo - {x};
        }
        items, rest := items + [oldest], rest - {oldest};
      }
    }

    /** Unlink the `.wav`. */
    method UnlinkAudio(d: nat, seg: Seg, thenFinalize: bool, ghost a: Action, ghost h: Hist)
      requires Ready() && d in pcs && h.mtime == hist.mtime
      requires Steps(View(), a, StartDeleting(View(), d, seg, thenFinalize).(hist := h))
      modifies `wav, `cpu, `pcs, `hist, `trace
      ensures Valid() && old(trace) <= trace && cpu == Deleting(d, seg, thenFinalize) && hist == h
      ensures wav == old(wav) - {seg} && pcs == old(pcs)[d := Top]
    {
      ghost var s0 := View();
      wav := wav - {seg};
      pcs, cpu, hist := pcs[d := Top], Deleting(d, seg, thenFinalize), h;
      Record(s0, a);
    }

    /** Where the drain task goes on once both files are gone. */
    method AfterDelete(thenFinalize: bool) returns (pc: Pc)
      ensures if thenFinalize then StartsPass(pc, Disk(json, wav, marks)) else pc.Top?
    {
      pc := if thenFinalize then FinalizeStart(Disk(json, wav, marks)) else Top;
    }

    /** Unlink the `.json` of a segment whose `.wav` is gone. */
    method UnlinkSidecar(d: nat, seg: Seg, thenFinalize: bool) returns (pc: Pc)
      requires Valid() && d in pcs && cpu == Deleting(d, seg, thenFinalize)
      modifies `json, `cpu, `pcs, `trace
      ensures Ready() && old(trace) <= trace && json == old(json) - {seg} && pcs == old(pcs)[d := pc]
      ensures if thenFinalize then StartsPass(pc, Disk(json, wav, marks)) else pc.Top?
    {
      ghost var s0 := View();
      json, cpu := json - {seg}, Free;
      pc := AfterDelete(thenFinalize);
      pcs := pcs[d := pc];
      UnlinkSteps(s0, View(), pc);
      Record(s0, UnlinkJson);
    }

    /** Unlinking the `.json` raises. */
    method FailUnlink(d: nat, seg: Seg, thenFinalize: bool)
      requires Valid() && d in pcs && cpu == Deleting(d, seg, thenFinalize)
      modifies `cpu, `pcs, `trace
      ensures Ready() && old(trace) <= trace && pcs == old(pcs)[d := Top]
    {
      ghost var s0 := View();
      pcs, cpu := pcs[d := Top], Free;
      Record(s0, UnlinkFail);
    }

    /** Unlink both files of a segment, the `.wav` first; then the finalization pass is about to start, or the
        drain task is back at the top of its loop. Each of the two may raise. */
    method DeleteFiles(d: nat, seg: Seg, thenFinalize: bool, unlinks: nat, ghost a: Action, ghost h: Hist)
      returns (ok: bool)
      requires Ready() && d in pcs && h.mtime == hist.mtime
      requires Steps(View(), a, StartDeleting(View(), d, seg, thenFinalize).(hist := h))
      modifies `json, `wav, `cpu, `pcs, `hist, `trace
      ensures Ready() && old(trace) <= trace && ok == (unlinks >= 2)
      ensures json == if ok then old(json) - {seg} else old(json)
      ensures wav == if unlinks > 0 then old(wav) - {seg} else old(wav)
      ensures d in pcs && pcs == old(pcs)[d := pcs[d]]
      ensures if ok && thenFinalize then StartsPass(pcs[d], Disk(json, wav, marks)) else pcs[d].Top?
    {
      ok := unlinks >= 2;
      if unlinks == 0 {
        Raise(d);
      } else {
        UnlinkAudio(d, seg, thenFinalize, a, h);
        if ok {
          var pc := UnlinkSidecar(d, seg, thenFinalize);
          assert pcs == old(pcs)[d := pc];
        } else {
          FailUnlink(d, seg, thenFinalize);
        }
      }
    }

    /** An exception inside a pass reaches `drain_loop`. */
    method Raise(d: nat)
      requires Ready() && d in pcs
      modifies `pcs, `trace
      ensures Ready() && old(trace) <= trace && pcs == old(pcs)[d := Top]
    {
      ghost var s0 := View();
      pcs := pcs[d := Top];
      Record(s0, DrainError(d));
    }

    /** The UPDATE of `_finalize_completed` for a meeting without pending files. */
    method UpdateCompleted(d: nat, m: nat, rest: seq<nat>, prefixes: set<string>)
      requires Ready() && d in pcs && pcs[d] == Finalizing([m] + rest, prefixes) && Names.Decimal(m) !in prefixes
      modifies `meetings, `pcs, `trace
      ensures Ready() && old(trace) <= trace && meetings == Complete(old(meetings), m)
      ensures pcs == old(pcs)[d := Unmarking(m, rest, prefixes)]
    {
      ghost var s0 := View();
      assert ([m] + rest)[1..] == rest;
      meetings, pcs := Complete(meetings, m), pcs[d := Unmarking(m, rest, prefixes)];
      Record(s0, FinalizeNext(d));
    }

    /** What follows that UPDATE: the marker goes, then the webhook task is created. */
    method ReleaseMarker(d: nat, m: nat, hook: bool, rest: seq<nat>, prefixes: set<string>)
      requires Ready() && d in pcs && pcs[d] == Unmarking(m, rest, prefixes)
      modifies `marks, `pcs, `hist, `trace
      ensures Ready() && old(trace) <= trace && marks == old(marks) - {m}
      ensures pcs == old(pcs)[d := Finalizing(rest, prefixes)]
      ensures hist == old(hist).(hooks := if hook && m in meetings then old(hist.hooks) + [m] else old(hist.hooks))
    {
      ghost var s0 := View();
      marks, pcs := marks - {m}, pcs[d := Finalizing(rest, prefixes)];
      hist := hist.(hooks := if hook && m in meetings then hist.hooks + [m] else hist.hooks);
      UnmarkSteps(s0, d, hook);
      Record(s0, Unmark(d, hook));
    }

    /** One meeting that still has pending files, or the end of the list. */
    method SkipMeeting(d: nat, todo: seq<nat>, prefixes: set<string>)
      requires Ready() && d in pcs && pcs[d] == Finalizing(todo, prefixes)
      requires todo != [] ==> Names.Decimal(todo[0]) in prefixes
      modifies `pcs, `trace
      ensures Ready() && old(trace) <= trace
      ensures pcs == old(pcs)[d := if todo == [] then Top else Finalizing(todo[1..], prefixes)]
    {
      ghost var s0 := View();
      pcs := pcs[d := if todo == [] then Top else Finalizing(todo[1..], prefixes)];
      Record(s0, FinalizeNext(d));
    }

    /** A meeting without pending files: the row, then the marker, then the webhook task. */
    method CompleteOne(d: nat, m: nat, rest: seq<nat>, prefixes: set<string>, hookFails: iset<nat>)
      requires Ready() && d in pcs && pcs[d] == Finalizing([m] + rest, prefixes) && Names.Decimal(m) !in prefixes
      modifies `meetings, `marks, `pcs, `hist, `trace
      ensures Ready() && old(trace) <= trace
      ensures Passed(old(View()), View(), d, Finalizing(rest, prefixes), {m}, hookFails)
    {
      UpdateCompleted(d, m, rest, prefixes);
      ReleaseMarker(d, m, m !in hookFails, rest, prefixes);
      assert meetings == CompleteAll(old(meetings), {m});
    }

    /** One turn of the loop of `_finalize_completed`; `done` is the meeting, if it was completed. */
    method FinalizeOne(d: nat, m: nat, rest: seq<nat>, prefixes: set<string>, updateOk: bool,
                       hookFails: iset<nat>)
      returns (ok: bool, ghost done: set<nat>)
      requires Ready() && d in pcs && pcs[d] == Finalizing([m] + rest, prefixes) && Decides(json, prefixes)
      modifies `meetings, `marks, `pcs, `hist, `trace
      ensures Ready() && old(trace) <= trace && ok == (PendingIn(json, m) || updateOk)
      ensures done == if ok && !PendingIn(json, m) then {m} else {}
      ensures Passed(old(View()), View(), d, if ok then Finalizing(rest, prefixes) else Top, done, hookFails)
    {
      ok, done := true, {};
      assert ([m] + rest)[1..] == rest;
      CompleteNone(meetings);
      if Names.Decimal(m) in prefixes {
        SkipMeeting(d, [m] + rest, prefixes);
      } else if updateOk {
        CompleteOne(d, m, rest, prefixes, hookFails);
        done := {m};
      } else {
        Raise(d);
        ok := false;
      }
    }

    /** The loop of `_finalize_completed` over the ids it listed. */
    method FinalizeList(d: nat, fms: seq<nat>, prefixes: set<string>, updateFails: iset<nat>, hookFails: iset<nat>)
      returns (ok: bool, ghost k: nat, ghost done: set<nat>)
      requires Ready() && d in pcs && pcs[d] == Finalizing(fms, prefixes) && Decides(json, prefixes)
      modifies `meetings, `marks, `pcs, `hist, `trace
      ensures Ready() && old(trace) <= trace
      ensures Passed(old(View()), View(), d, Top, done, hookFails)
      ensures k <= |fms| && DoneUpTo(json, fms, k, done) && (ok ==> k == |fms|)
      ensures updateFails == iset{} ==> ok
    {
      done := {};
      var i := 0;
      ghost var start := View();
      PassedNone(start, d);
      while i < |fms|
        invariant i <= |fms| && Ready() && old(trace) <= trace && DoneUpTo(json, fms, i, done)
        invariant Passed(start, View(), d, Finalizing(fms[i..], prefixes), done, hookFails)
      {
        assert fms[i..] == [fms[i]] + fms[i + 1..];
        ghost var mid, pc := View(), pcs[d];
        ghost var now: set<nat>;
        ok, now := FinalizeOne(d, fms[i], fms[i + 1..], prefixes, fms[i] !in updateFails, hookFails);
        PassedMore(start, mid, View(), d, pc, pcs[d], done, now, hookFails);
        if !ok {
          return false, i, done + now;
        }
        DoneNext(json, fms, i, done);
        done, i := done + now, i + 1;
      }
      assert fms[i..] == [];
      ghost var mid, pc := View(), pcs[d];
      SkipMeeting(d, [], prefixes);
      CompleteNone(meetings);
      PassedMore(start, mid, View(), d, pc, Top, done, {}, hookFails);
      ok, k, done := true, i, done + {};
    }

    /** `_finalize_completed`: complete the marked meetings without pending files. The UPDATE may raise, which ends
        the pass; then what was completed stays completed, and the rest stays marked. */
    method FinalizeCompleted(d: nat, updateFails: iset<nat>, hookFails: iset<nat>) returns (ok: bool)
      requires Ready() && d in pcs && StartsPass(pcs[d], Disk(json, wav, marks))
      modifies `meetings, `marks, `pcs, `hist, `trace
      ensures Ready() && old(trace) <= trace
      ensures marks <= old(marks) && forall m :: m in old(marks) && m !in marks ==> !PendingIn(json, m)
      ensures ok ==> forall m :: m in marks ==> PendingIn(json, m)
      ensures updateFails == iset{} ==> ok
      ensures Passed(old(View()), View(), d, Top, old(marks) - marks, hookFails)
    {
      assert pcs[d] == FinalizeStart(Disk(json, wav, marks));
      var fms := Names.FinalizingMeetings(Names.MarkerNames(marks));
      Names.FinalizingRoundTrip(marks);
      ok := true;
      ghost var done: set<nat> := {};
      PassedNone(View(), d);
      if fms != [] {
        PrefixesDecide(View());
        ghost var k;
        ok, k, done := FinalizeList(d, fms, PendingPrefixes(json), updateFails, hookFails);
        assert ok ==> fms[..k] == fms;
      }
      assert old(marks) - marks == done;
    }

    /** A drain task reads the head of the queue and posts it to the worker. */
    method PickUp(d: nat, head: Seg)
      requires Ready() && d in pcs && pcs[d].Top? && IsHead(View(), head) && Readable(Disk(json, wav, marks), head)
      modifies `pcs, `trace
      ensures Ready() && old(trace) <= trace && pcs == old(pcs)[d := Transcribing(head, json[head].meta)]
    {
      ghost var s0 := View();
      pcs := pcs[d := Transcribing(head, json[head].meta)];
      Record(s0, Scan(d, head, true));
    }

    /** The worker answered with text, or not at all. */
    method Hear(d: nat, reply: Option<string>)
      requires Ready() && d in pcs && pcs[d].Transcribing? && reply != Some("")
      modifies `pcs, `trace
      ensures Ready() && old(trace) <= trace
      ensures pcs == old(pcs)[d := if reply.None? then Top
                                   else Inserting(old(pcs)[d].seg, old(pcs)[d].meta, reply.value)]
    {
      ghost var s0 := View();
      pcs := pcs[d := if reply.None? then Top else Inserting(pcs[d].seg, pcs[d].meta, reply.value)];
      Record(s0, Answer(d, reply));
    }

    /** `insert_transcription`: two statements, not one transaction. */
    method InsertTranscription(d: nat, seg: Seg, meta: Meta, text: string, insertOk: bool, touchOk: bool)
      returns (ok: bool)
      requires Ready() && d in pcs && pcs[d] == Inserting(seg, meta, text)
      modifies `rows, `pcs, `hist, `trace
      ensures Ready() && old(trace) <= trace && ok == (insertOk && touchOk)
      ensures rows == if insertOk then old(rows) + [Row(seg, meta, text)] else old(rows)
      ensures pcs == old(pcs)[d := if ok then Touching(seg, meta) else Top]
      ensures hist.mtime == old(hist.mtime)
    {
      ok := insertOk && touchOk;
      if insertOk {
        ghost var s0 := View();
        rows, pcs := rows + [Row(seg, meta, text)], pcs[d := Touching(seg, meta)];
        hist := hist.(inserted := hist.inserted + {seg});
        Record(s0, InsertRow(d));
      }
      if !ok {
        Raise(d);
      }
    }

    /** The listing finds nothing: only a finalization pass is made. */
    method FindNothing(d: nat, p: Pass) returns (out: Outcome)
      requires Ready() && d in pcs && pcs[d].Top? && json == map[]
      modifies `meetings, `marks, `pcs, `hist, `trace
      ensures Ready() && old(trace) <= trace && pcs == old(pcs)[d := Top]
      ensures marks <= old(marks) && meetings == CompleteAll(old(meetings), old(marks) - marks)
      ensures out == Idle || out == Raised
      ensures p.updateFails == iset{} ==> out == Idle
      ensures out == Idle ==> marks == {}
    {
      ghost var s0 := View();
      pcs := pcs[d := FinalizeStart(Disk(json, wav, marks))];
      Record(s0, ScanEmpty(d));
      var ok := FinalizeCompleted(d, p.updateFails, p.hookFails);
      out := if ok then Idle else Raised;
    }

    /** The head cannot be loaded: a file is missing or torn, or reading fails. */
    method DropUnreadable(d: nat, head: Seg, readOk: bool, unlinks: nat) returns (ok: bool)
      requires Ready() && d in pcs && pcs[d].Top? && IsHead(View(), head)
      requires !(Readable(Disk(json, wav, marks), head) && readOk)
      modifies `json, `wav, `cpu, `pcs, `hist, `trace
      ensures Ready() && old(trace) <= trace && pcs == old(pcs)[d := Top] && ok == (unlinks >= 2)
      ensures json == if ok then old(json) - {head} else old(json)
      ensures wav == if unlinks > 0 then old(wav) - {head} else old(wav)
    {
      ghost var h := WithUnread(View(), head);
      ok := DeleteFiles(d, head, false, unlinks, Scan(d, head, readOk), h);
    }

    /** The worker found no speech. */
    method DropSilent(d: nat, head: Seg, meta: Meta, unlinks: nat) returns (ok: bool)
      requires Ready() && d in pcs && pcs[d] == Transcribing(head, meta)
      modifies `json, `wav, `cpu, `pcs, `hist, `trace
      ensures Ready() && old(trace) <= trace && ok == (unlinks >= 2)
      ensures json == if ok then old(json) - {head} else old(json)
      ensures wav == if unlinks > 0 then old(wav) - {head} else old(wav)
      ensures d in pcs && pcs == old(pcs)[d := pcs[d]]
      ensures if ok then StartsPass(pcs[d], Disk(json, wav, marks)) else pcs[d].Top?
    {
      ok := DeleteFiles(d, head, true, unlinks, Answer(d, Some("")), hist.(silent := hist.silent + {head}));
    }

    /** The row is inserted. */
    method DropInserted(d: nat, head: Seg, meta: Meta, unlinks: nat) returns (ok: bool)
      requires Ready() && d in pcs && pcs[d] == Touching(head, meta)
      modifies `json, `wav, `cpu, `pcs, `hist, `trace
      ensures Ready() && old(trace) <= trace && ok == (unlinks >= 2)
      ensures json == if ok then old(json) - {head} else old(json)
      ensures wav == if unlinks > 0 then old(wav) - {head} else old(wav)
      ensures d in pcs && pcs == old(pcs)[d := pcs[d]]
      ensures if ok then StartsPass(pcs[d], Disk(json, wav, marks)) else pcs[d].Top?
    {
      ok := DeleteFiles(d, head, true, unlinks, TouchMeeting(d), hist);
    }

    /** The part of `drain_once` after `load_segment` succeeded. */
    method ProcessReadable(d: nat, head: Seg, p: Pass) returns (removed: bool)
      requires Ready() && d in pcs && pcs[d].Top? && IsHead(View(), head) && Readable(Disk(json, wav, marks), head)
      requires p.readOk
      modifies `json, `wav, `rows, `pcs, `cpu, `hist, `trace
      ensures Ready() && old(trace) <= trace && removed == !Unlucky(p)
      ensures json == if removed then old(json) - {head} else old(json)
      ensures wav == AudioAfter(old(Disk(json, wav, marks)), head, p)
      ensures rows == RowsAfter(old(Disk(json, wav, marks)), old(rows), head, p)
      ensures d in pcs && pcs == old(pcs)[d := pcs[d]]
      ensures if removed then StartsPass(pcs[d], Disk(json, wav, marks)) else pcs[d].Top?
    {
      var meta := json[head].meta;
      PickUp(d, head);
      if p.reply == Some("") {
        removed := DropSilent(d, head, meta, p.unlinks);
      } else {
        removed := ProcessText(d, head, meta, p);
      }
    }

    /** The part of `drain_once` after an answer that is not silence. */
    method ProcessText(d: nat, head: Seg, meta: Meta, p: Pass) returns (removed: bool)
      requires Ready() && d in pcs && pcs[d] == Transcribing(head, meta) && p.reply != Some("")
      modifies `json, `wav, `rows, `pcs, `cpu, `hist, `trace
      ensures Ready() && old(trace) <= trace && removed == (!Refused(p) && p.unlinks >= 2)
      ensures json == if removed then old(json) - {head} else old(json)
      ensures wav == if Refused(p) || p.unlinks == 0 then old(wav) else old(wav) - {head}
      ensures rows == if p.reply.Some? && p.insertOk then old(rows) + [Row(head, meta, p.reply.value)] else old(rows)
      ensures d in pcs && pcs == old(pcs)[d := pcs[d]]
      ensures if removed then StartsPass(pcs[d], Disk(json, wav, marks)) else pcs[d].Top?
    {
      removed := HearAndInsert(d, head, meta, p);
      if removed {
        removed := DropInserted(d, head, meta, p.unlinks);
      }
    }

    /** The answer is not silence: insert the text, if there is one. */
    method HearAndInsert(d: nat, head: Seg, meta: Meta, p: Pass) returns (ok: bool)
      requires Ready() && d in pcs && pcs[d] == Transcribing(head, meta) && p.reply != Some("")
      modifies `rows, `pcs, `hist, `trace
      ensures Ready() && old(trace) <= trace && ok == !Refused(p) && hist.mtime == old(hist.mtime)
      ensures rows == if p.reply.Some? && p.insertOk then old(rows) + [Row(head, meta, p.reply.value)] else old(rows)
      ensures pcs == old(pcs)[d := if ok then Touching(head, meta) else Top]
    {
      Hear(d, p.reply);
      ok := false;
      if p.reply.Some? {
        ok := InsertTranscription(d, head, meta, p.reply.value, p.insertOk, p.touchOk);
      }
    }

    /** The part of `drain_once` after the listing: deal with the head. */
    method ProcessHead(d: nat, head: Seg, p: Pass) returns (removed: bool, finalize: bool)
      requires Ready() && d in pcs && pcs[d].Top? && IsHead(View(), head)
      modifies `json, `wav, `rows, `pcs, `cpu, `hist, `trace
      ensures Ready() && old(trace) <= trace
      ensures removed == !HeadStays(old(Disk(json, wav, marks)), head, p)
      ensures json == if removed then old(json) - {head} else old(json)
      ensures wav == AudioAfter(old(Disk(json, wav, marks)), head, p)
      ensures rows == RowsAfter(old(Disk(json, wav, marks)), old(rows), head, p)
      ensures finalize == (removed && p.readOk && Readable(old(Disk(json, wav, marks)), head))
      ensures d in pcs && pcs == old(pcs)[d := pcs[d]]
      ensures if finalize then StartsPass(pcs[d], Disk(json, wav, marks)) else pcs[d].Top?
    {
      if Readable(Disk(json, wav, marks), head) && p.readOk {
        removed := ProcessReadable(d, head, p);
        finalize := removed;
      } else {
        removed := DropUnreadable(d, head, p.readOk, p.unlinks);
        finalize := false;
      }
    }

    /** `scan_pending()[0]`, if there is one. */
    method Oldest() returns (head: Option<Seg>)
      requires Ready()
      ensures head.None? <==> json == map[]
      ensures head.Some? ==> IsHead(View(), head.value)
    {
      Stamps(View(), trace);
      var items := ScanPending();
      if items == [] {
        return None;
      }
      head := Some(items[0]);
      assert items[0] in items;
    }

    /** `drain_once` from the listing on, for a queue that is not empty. */
    method DrainHead(d: nat, head: Seg, p: Pass) returns (out: Outcome)
      requires Ready() && d in pcs && pcs[d].Top? && IsHead(View(), head)
      modifies `json, `wav, `rows, `meetings, `marks, `pcs, `cpu, `hist, `trace
      ensures Ready() && old(trace) <= trace && pcs == old(pcs)[d := Top]
      ensures rows == RowsAfter(old(Disk(json, wav, marks)), old(rows), head, p)
      ensures wav == AudioAfter(old(Disk(json, wav, marks)), head, p)
      ensures if HeadStays(old(Disk(json, wav, marks)), head, p) then
          && json == old(json) && marks == old(marks) && meetings == old(meetings)
          && out == Ends(old(Disk(json, wav, marks)), head, p)
        else
          json == old(json) - {head} && wav == old(wav) - {head} && (out == Done || out == Raised)
      ensures marks <= old(marks) && forall m :: m in old(marks) && m !in marks ==> !PendingIn(json, m)
      ensures meetings == CompleteAll(old(meetings), old(marks) - marks)
      ensures var read := p.readOk && Readable(old(Disk(json, wav, marks)), head);
        && (!read ==> marks == old(marks))
        && (read && out == Done ==> forall m :: m in marks ==> PendingIn(json, m))
      ensures !HeadStays(old(Disk(json, wav, marks)), head, p) && p.updateFails == iset{} ==> out == Done
    {
      var read := Readable(Disk(json, wav, marks), head) && p.readOk;
      var removed, finalize := ProcessHead(d, head, p);
      CompleteNone(meetings);
      out := if removed then Done else if read && p.reply.None? then Failing else Raised;
      if finalize {
        var ok := FinalizeCompleted(d, p.updateFails, p.hookFails);
        out := if ok then Done else Raised;
      } else {
        assert old(marks) - marks == {};
      }
    }

    /** `drain_once`. An empty queue is only finalized; otherwise the head, and nothing else, is dealt with: it stays
        when the worker, a statement or an unlinking failed, and goes when it was unreadable, silent, or inserted. */
    method DrainOnce(d: nat, p: Pass) returns (out: Outcome, head: Option<Seg>)
      requires Ready() && d in pcs && pcs[d].Top?
      modifies `json, `wav, `rows, `meetings, `marks, `pcs, `cpu, `hist, `trace
      ensures Ready() && old(trace) <= trace && pcs == old(pcs)[d := Top]
      ensures head.None? <==> old(json) == map[]
      ensures head.None? ==> json == old(json) && wav == old(wav) && rows == old(rows) && (out == Idle || out == Raised)
      ensures head.Some? ==>
        && IsHead(old(View()), head.value)
        && rows == RowsAfter(old(Disk(json, wav, marks)), old(rows), head.value, p)
        && wav == AudioAfter(old(Disk(json, wav, marks)), head.value, p)
        && if HeadStays(old(Disk(json, wav, marks)), head.value, p) then
             && json == old(json) && marks == old(marks) && meetings == old(meetings)
             && out == Ends(old(Disk(json, wav, marks)), head.value, p)
           else
             && json == old(json) - {head.value} && wav == old(wav) - {head.value}
             && (out == Done || out == Raised)
      ensures marks <= old(marks) && forall m :: m in old(marks) && m !in marks ==> !PendingIn(json, m)
      ensures meetings == CompleteAll(old(meetings), old(marks) - marks)
      ensures head.Some? ==> var read := p.readOk && Readable(old(Disk(json, wav, marks)), head.value);
        && (!read ==> marks == old(marks))
        && (read && out == Done ==> forall m :: m in marks ==> PendingIn(json, m))
      ensures head.Some? && !HeadStays(old(Disk(json, wav, marks)), head.value, p) ==>
        (p.updateFails == iset{} ==> out == Done)
      ensures head.None? && p.updateFails == iset{} ==> out == Idle
      ensures out == Idle ==> marks == {}
    {
      head := Oldest();
      if head.None? {
        out := FindNothing(d, p);
      } else {
        out := DrainHead(d, head.value, p);
      }
    }

    /** One turn of `drain_loop`, counted by what it did. */
    method DrainTurn(d: nat, p: Pass) returns (removed: nat, stayed: nat, idle: nat)
      requires Ready() && d in pcs && pcs[d].Top?
      modifies `json, `wav, `rows, `meetings, `marks, `pcs, `cpu, `hist, `trace
      ensures Ready() && old(trace) <= trace && pcs == old(pcs)[d := Top]
      ensures Turn(old(Disk(json, wav, marks)), Disk(json, wav, marks), p, removed, stayed, idle)
      ensures marks <= old(marks) && (idle > 0 && p.updateFails == iset{} ==> marks == {})
    {
      var out, head := DrainOnce(d, p);
      removed, stayed, idle := 0, 0, 0;
      if head.None? {
        idle := 1;
      } else if head.value in json {
        stayed := 1;
      } else {
        removed := 1;
        assert json.Keys == old(json).Keys - {head.value};
      }
    }

    /** `drain_loop` over any number of passes while nothing new is spilled: a pass takes off the head, leaves it, or
        finds the queue empty. `DrainProgress` says what the tally means. */
    method DrainLoop(d: nat, passes: seq<Pass>) returns (removed: nat, stayed: nat, idle: nat)
      requires Ready() && d in pcs && pcs[d].Top?
      modifies `json, `wav, `rows, `meetings, `marks, `pcs, `cpu, `hist, `trace
      ensures Ready() && old(trace) <= trace && pcs == old(pcs)[d := Top]
      ensures Tally(old(Disk(json, wav, marks)), Disk(json, wav, marks), passes, |passes|, removed, stayed, idle)
      ensures idle > 0 && UpdatesWork(passes) ==> marks == {}
    {
      removed, stayed, idle := 0, 0, 0;
      var k := 0;
      ghost var start := Disk(json, wav, marks);
      while k < |passes|
        invariant k <= |passes| && Ready() && old(trace) <= trace && pcs == old(pcs)[d := Top]
        invariant Tally(start, Disk(json, wav, marks), passes, k, removed, stayed, idle)
        invariant idle > 0 && UpdatesWork(passes) ==> marks == {}
      {
        ghost var before := Disk(json, wav, marks);
        var r, s, i := DrainTurn(d, passes[k]);
        TallyNext(start, before, Disk(json, wav, marks), passes, k, removed, stayed, idle, r, s, i);
        removed, stayed, idle, k := removed + r, stayed + s, idle + i, k + 1;
      }
    }

    /** `channel.connect`, which refuses a guild that has a voice client. */
    method ConnectVoice(j: nat, channel: Channel) returns (ok: bool)
      requires Ready() && j !in joins
      modifies `joins, `voice, `trace
      ensures Ready() && old(trace) <= trace && ok == (channel.guild !in old(voice))
      ensures joins == (if ok then old(joins)[j := Connected(channel)] else old(joins))
      ensures voice == old(voice) + {channel.guild}
    {
      ok := channel.guild !in voice;
      if ok {
        ghost var s0 := View();
        joins, voice := joins[j := Connected(channel)], voice + {channel.guild};
        Record(s0, JoinConnect(j, channel));
      }
    }

    /** No credentials came: disconnect. */
    method RefuseJoin(j: nat)
      requires Ready() && j in joins && joins[j].Connected?
      modifies `joins, `voice, `trace
      ensures Ready() && old(trace) <= trace && joins == old(joins) - {j}
      ensures voice == old(voice) - {old(joins)[j].channel.guild}
    {
      ghost var s0 := View();
      voice, joins := voice - {joins[j].channel.guild}, joins - {j};
      Record(s0, JoinRefuse(j));
    }

    /** The UPDATE of `join`: retire what a crash left open. */
    method RetireStale(j: nat)
      requires Ready() && j in joins && joins[j].Connected?
      modifies `meetings, `joins, `trace
      ensures Ready() && old(trace) <= trace
      ensures var ch := old(joins)[j].channel;
        joins == old(joins)[j := Retired(ch)] && meetings == Retire(old(meetings), ch)
      ensures meetings.Keys == old(meetings).Keys
      ensures var ch := old(joins)[j].channel;
        forall n :: n in meetings ==>
          meetings[n] == if old(meetings)[n] == MeetingRow(ch, Active) then MeetingRow(ch, Failed) else old(meetings)[n]
    {
      ghost var s0 := View();
      var ch := joins[j].channel;
      meetings, joins := Retire(meetings, ch), joins[j := Retired(ch)];
      Record(s0, JoinRetire(j));
    }

    /** The INSERT of `join`. */
    method InsertMeeting(j: nat, m: nat, session: string, base: int)
      requires Ready() && j in joins && joins[j].Retired? && m !in meetings
      modifies `meetings, `joins, `trace
      ensures Ready() && old(trace) <= trace
      ensures var ch := old(joins)[j].channel;
        && joins == old(joins)[j := Inserted(Recording(m, ch, session, base))]
        && meetings == old(meetings)[m := MeetingRow(ch, Active)]
    {
      var ch := joins[j].channel;
      ghost var s0 := View();
      meetings := meetings[m := MeetingRow(ch, Active)];
      joins := joins[j := Inserted(Recording(m, ch, session, base))];
      Record(s0, JoinInsert(j, m, session, base));
    }

    /** The SQL section of `join`: retire what a crash left open, then open the new meeting. */
    method OpenMeeting(j: nat, m: nat, session: string, base: int)
      requires Ready() && j in joins && joins[j].Connected? && m !in meetings
      modifies `meetings, `joins, `trace
      ensures Ready() && old(trace) <= trace
      ensures var ch := old(joins)[j].channel;
        && joins == old(joins)[j := Inserted(Recording(m, ch, session, base))]
        && meetings.Keys == old(meetings).Keys + {m} && meetings[m] == MeetingRow(ch, Active)
        && (forall n :: n in old(meetings) ==>
              meetings[n] ==
              if old(meetings)[n] == MeetingRow(ch, Active) then MeetingRow(ch, Failed) else old(meetings)[n])
        && forall n :: StatusMachine.IsOpen(View(), n, ch) <==> n == m
    {
      RetireStale(j);
      InsertMeeting(j, m, session, base);
    }

    /** The end of `join` once the voice client is up: the drainer is alive and the guild is recording into the buffer
        made before the client started, with what that has heard since. */
    method StartRecording(j: nat, d: nat, sink: PcmBuffers.PcmBuffer)
      requires Ready() && j in joins && joins[j].Inserted? && d !in pcs && drainTask != Some(d)
      modifies `active, `joins, `sinks, `drainTask, `pcs, `trace
      ensures Ready() && old(trace) <= trace && joins == old(joins) - {j}
      ensures var rec := old(joins)[j].rec; var g := rec.channel.guild;
        active == old(active)[g := rec] && sinks == old(sinks)[g := sink]
      ensures sink.View() == old(sink.View())
      ensures drainTask.Some? && drainTask.value in pcs
    {
      sinks := sinks[joins[j].rec.channel.guild := sink];
      GoLive(j, d);
    }

    method GoLive(j: nat, d: nat)
      requires Ready() && j in joins && joins[j].Inserted? && d !in pcs && drainTask != Some(d)
      modifies `active, `joins, `drainTask, `pcs, `trace
      ensures Ready() && old(trace) <= trace && joins == old(joins) - {j}
      ensures active == old(active)[old(joins)[j].rec.channel.guild := old(joins)[j].rec]
      ensures drainTask.Some? && drainTask.value in pcs
    {
      var rec := joins[j].rec;
      ghost var s0 := View();
      Revive(d);
      active, joins := active[rec.channel.guild := rec], joins - {j};
      UpSteps(s0, j, d);
      Record(s0, JoinUp(j, d));
    }

    /** The voice client did not come up: disconnect, then fail the row. */
    method GiveUp(j: nat)
      requires Ready() && j in joins && joins[j].Inserted? && joins[j].rec.meeting in meetings
      modifies `meetings, `joins, `voice, `trace
      ensures Ready() && old(trace) <= trace && joins == old(joins) - {j}
      ensures var rec := old(joins)[j].rec;
        && voice == old(voice) - {rec.channel.guild}
        && meetings == old(meetings)[rec.meeting := old(meetings)[rec.meeting].(status := Failed)]
    {
      var rec := joins[j].rec;
      CloseVoice(j);
      ghost var s0 := View();
      meetings, joins := meetings[rec.meeting := meetings[rec.meeting].(status := Failed)], joins - {j};
      Record(s0, JoinDown(j));
    }

    method CloseVoice(j: nat)
      requires Ready() && j in joins && joins[j].Inserted?
      modifies `joins, `voice, `trace
      ensures Ready() && old(trace) <= trace && joins == old(joins)[j := Closing(old(joins)[j].rec)]
      ensures voice == old(voice) - {old(joins)[j].rec.channel.guild}
    {
      ghost var s0 := View();
      voice, joins := voice - {joins[j].rec.channel.guild}, joins[j := Closing(joins[j].rec)];
      Record(s0, JoinClose(j));
    }

    /** The first statement of `leave`. */
    method PopRecording(guild: Guild) returns (rec: Recording)
      requires Ready() && guild in active
      modifies `active, `leaves, `trace
      ensures Ready() && old(trace) <= trace && rec == old(active)[guild]
      ensures active == old(active) - {guild} && leaves == old(leaves)[rec.meeting := Leaving(rec, true)]
    {
      rec := active[guild];
      ghost var s0 := View();
      active, leaves := active - {guild}, leaves[rec.meeting := Leaving(rec, true)];
      Record(s0, LeavePop(guild));
    }

    /** `vc.disconnect` of `leave`. */
    method Disconnect(m: nat)
      requires Ready() && m in leaves && leaves[m].connected
      modifies `leaves, `voice, `trace
      ensures Ready() && old(trace) <= trace && leaves == old(leaves)[m := Leaving(old(leaves)[m].rec, false)]
      ensures voice == old(voice) - {old(leaves)[m].rec.channel.guild}
    {
      ghost var s0 := View();
      voice, leaves := voice - {leaves[m].rec.channel.guild}, leaves[m := Leaving(leaves[m].rec, false)];
      Record(s0, LeaveDisconnect(m));
    }

    method StartLeaveStore(rec: Recording, c: PcmBuffers.Cut, uuid: string)
      requires Ready() && rec.meeting in leaves && leaves[rec.meeting] == Leaving(rec, false)
      requires Seg(rec.meeting, uuid) !in hist.cuts
      modifies `jobs, `hist, `trace
      ensures Ready() && old(trace) <= trace
      ensures var seg, job := Seg(rec.meeting, uuid), JobOf(rec, c, true);
        jobs == old(jobs)[seg := job] && hist == old(hist).(cuts := old(hist.cuts)[seg := job])
    {
      var seg, job := Seg(rec.meeting, uuid), JobOf(rec, c, true);
      ghost var s0 := View();
      jobs, hist := jobs[seg := job], hist.(cuts := hist.cuts[seg := job]);
      Record(s0, LeaveCut(rec.meeting, uuid, c.user, c.pcm, c.start, c.last));
    }

    /** One `await store(...)` of `leave`; an exception ends the `leave`. */
    method LeaveStore(rec: Recording, c: PcmBuffers.Cut, uuid: string, speaker: string, stamp: int, writes: nat)
      returns (ok: bool)
      requires Ready() && rec.meeting in leaves && leaves[rec.meeting] == Leaving(rec, false)
      requires Seg(rec.meeting, uuid) !in hist.cuts && Seg(rec.meeting, uuid) !in jobs
      requires LeaveJobs(jobs, rec.meeting) == {}
      modifies `json, `mtime, `wav, `jobs, `leaves, `cpu, `hist, `trace
      ensures Ready() && old(trace) <= trace && jobs == old(jobs) && ok == Stores(c.pcm, writes)
      ensures leaves == if ok then old(leaves) else old(leaves) - {rec.meeting}
      ensures hist.cuts.Keys == old(hist.cuts).Keys + {Seg(rec.meeting, uuid)}
      ensures var seg := Seg(rec.meeting, uuid);
        if TooShort(c.pcm) then json == old(json) && wav == old(wav)
        else
          && json == JsonAfter(old(json), seg, MetaOf(seg, JobOf(rec, c, true), speaker), writes)
          && wav == WavAfter(old(wav), seg, c.pcm, writes)
    {
      ghost var before := jobs;
      StartLeaveStore(rec, c, uuid);
      OnlyLeaveJob(before, Seg(rec.meeting, uuid), JobOf(rec, c, true));
      ok := Store(Seg(rec.meeting, uuid), speaker, stamp, writes);
      assert LeaveJobs(before[Seg(rec.meeting, uuid) := JobOf(rec, c, true)], rec.meeting) == {Seg(rec.meeting, uuid)};
    }

    /** The end of `leave`: `mark_finalizing` and `ensure_drain_loop`. */
    method MarkFinalizing(m: nat, d: nat)
      requires Ready() && m in leaves && !leaves[m].connected && d !in pcs && drainTask != Some(d)
      requires LeaveJobs(jobs, m) == {}
      modifies `marks, `leaves, `drainTask, `pcs, `hist, `trace
      ensures Ready() && old(trace) <= trace
      ensures marks == old(marks) + {m} && leaves == old(leaves) - {m}
      ensures drainTask.Some? && drainTask.value in pcs
      ensures m !in old(hist.dirty) && LongJobs(jobs, m) == {} ==> m !in hist.dirty
    {
      ghost var s0 := View();
      Revive(d);
      marks, leaves := marks + {m}, leaves - {m};
      hist := hist.(left := hist.left + {m},
                    dirty := if LongJobs(jobs, m) == {} then hist.dirty else hist.dirty + {m});
      MarkSteps(s0, m, d);
      assert View().mem == WithDrainer(s0.mem, d).(leaves := s0.mem.leaves - {m});
      Record(s0, LeaveMark(m, d));
    }

    /** One turn of the loop of `leave`. */
    method LeaveStoreNext(rec: Recording, cuts: seq<PcmBuffers.Cut>, i: nat, e: Answers, ghost start: FilePair)
      returns (ok: bool)
      requires Ready() && rec.meeting in leaves && leaves[rec.meeting] == Leaving(rec, false)
      requires i < |cuts| && LeaveJobs(jobs, rec.meeting) == {} && Distinct(e)
      requires Underway(start, FilePair(json, wav), hist, rec, cuts, e, i, true)
      modifies `json, `mtime, `wav, `jobs, `leaves, `cpu, `hist, `trace
      ensures Ready() && old(trace) <= trace && jobs == old(jobs) && ok == Stores(cuts[i].pcm, e.writes(i))
      ensures leaves == if ok then old(leaves) else old(leaves) - {rec.meeting}
      ensures Underway(start, FilePair(json, wav), hist, rec, cuts, e, i + 1, ok)
    {
      JobsAreCuts(View(), trace);
      ghost var before, was := FilePair(json, wav), hist;
      NextIsFresh(start, before, was, rec, cuts, e, i);
      ok := LeaveStore(rec, cuts[i], e.uuid(i), e.speaker(i), e.stamp(i), e.writes(i));
      OneMoreTried(start, before, FilePair(json, wav), was, hist, rec, cuts, e, i);
    }

    /** The loop of `leave` over what `drain_all` popped; `k` of the cuts were tried. */
    method LeaveStoreAll(rec: Recording, cuts: seq<PcmBuffers.Cut>, e: Answers) returns (ok: bool, ghost k: nat)
      requires Ready() && rec.meeting in leaves && leaves[rec.meeting] == Leaving(rec, false)
      requires FreshNames(hist, rec.meeting, e) && LeaveJobs(jobs, rec.meeting) == {}
      modifies `json, `mtime, `wav, `jobs, `leaves, `cpu, `hist, `trace
      ensures Ready() && old(trace) <= trace && jobs == old(jobs)
      ensures leaves == if ok then old(leaves) else old(leaves) - {rec.meeting}
      ensures StoredUpTo(old(FilePair(json, wav)), FilePair(json, wav), rec, cuts, e, k, ok)
    {
      var i: nat := 0;
      ghost var start := FilePair(json, wav);
      NoneTried(start, hist, rec, cuts, e);
      while i < |cuts|
        invariant Ready() && old(trace) <= trace && jobs == old(jobs) && leaves == old(leaves)
        invariant Underway(start, FilePair(json, wav), hist, rec, cuts, e, i, true)
      {
        ok := LeaveStoreNext(rec, cuts, i, e, start);
        i := i + 1;
        if !ok {
          AllTried(start, FilePair(json, wav), hist, rec, cuts, e, i, false);
          return false, i;
        }
      }
      AllTried(start, FilePair(json, wav), hist, rec, cuts, e, i, true);
      ok, k := true, i;
    }

    /** `client.stop` or `vc.disconnect` raises, and `leave` ends. */
    method AbortLeave(m: nat)
      requires Ready() && m in leaves && LeaveJobs(jobs, m) == {}
      modifies `leaves, `trace
      ensures Ready() && old(trace) <= trace && leaves == old(leaves) - {m}
    {
      ghost var s0 := View();
      leaves := leaves - {m};
      assert jobs - {} == jobs && hist.lost + {} == hist.lost;
      assert View() == AbandonLeave(s0, m);
      Record(s0, LeaveAbort(m));
    }

    /** The part of `leave` before the buffer is drained. */
    method StartLeave(guild: Guild, hangup: Hangup) returns (rec: Recording)
      requires Ready() && guild in active
      modifies `active, `leaves, `voice, `trace
      ensures Ready() && old(trace) <= trace && rec == old(active)[guild] && active == old(active) - {guild}
      ensures voice == if hangup.StopRaises? then old(voice) else old(voice) - {rec.channel.guild}
      ensures hangup.Closed? ==> rec.meeting in leaves && leaves[rec.meeting] == Leaving(rec, false)
      ensures LeaveJobs(jobs, rec.meeting) == {}
      ensures !hangup.Closed? ==> rec.meeting !in leaves
    {
      NoLeaveJobs(View(), trace, guild);
      rec := PopRecording(guild);
      if !hangup.StopRaises? {
        Disconnect(rec.meeting);
      }
      if !hangup.Closed? {
        AbortLeave(rec.meeting);
      }
    }

    method DrainSink(sink: PcmBuffers.PcmBuffer, now: int) returns (cuts: seq<PcmBuffers.Cut>)
      requires PcmBuffers.WellFormed(sink.View())
      modifies sink
      ensures Drained(old(sink.View()), sink.View(), cuts, now)
    {
      cuts := sink.DrainAll(now);
    }

    /** The part of `leave` after that. */
    method EndLeave(rec: Recording, cuts: seq<PcmBuffers.Cut>, e: Answers, d: nat) returns (ok: bool, ghost k: nat)
      requires Ready() && rec.meeting in leaves && leaves[rec.meeting] == Leaving(rec, false)
      requires FreshNames(hist, rec.meeting, e) && LeaveJobs(jobs, rec.meeting) == {}
      requires d !in pcs && drainTask != Some(d)
      modifies `json, `mtime, `wav, `jobs, `leaves, `marks, `drainTask, `pcs, `cpu, `hist, `trace
      ensures Ready() && old(trace) <= trace && jobs == old(jobs) && leaves == old(leaves) - {rec.meeting}
      ensures StoredUpTo(old(FilePair(json, wav)), FilePair(json, wav), rec, cuts, e, k, ok)
      ensures marks == if ok then old(marks) + {rec.meeting} else old(marks)
      ensures ok ==> drainTask.Some? && drainTask.value in pcs
    {
      ok, k := LeaveStoreAll(rec, cuts, e);
      if ok {
        MarkFinalizing(rec.meeting, d);
      }
    }

    /** `leave`: everything still buffered is dropped as short or on disk before the marker is touched, and the store
        tasks that `flusher` created are not awaited. If the voice connection does not close, nothing is popped; if
        storing a cut fails, the rest is not tried; and then there is no marker. */
    method Leave(guild: Guild, sink: PcmBuffers.PcmBuffer, now: int, e: Answers, d: nat, hangup: Hangup)
      returns (ok: bool, rec: Recording, cuts: seq<PcmBuffers.Cut>, ghost k: nat)
      requires Ready() && guild in active && d !in pcs && drainTask != Some(d)
      requires FreshNames(hist, active[guild].meeting, e)
      requires guild in sinks && sinks[guild] == sink && PcmBuffers.WellFormed(sink.View())
      modifies `json, `mtime, `wav, `jobs, `active, `leaves, `voice, `marks
      modifies `drainTask, `pcs, `cpu, `hist, `trace
      modifies sink
      ensures Ready() && old(trace) <= trace && jobs == old(jobs) && rec == old(active)[guild]
      ensures active == old(active) - {guild} && rec.meeting !in leaves
      ensures voice == if hangup.StopRaises? then old(voice) else old(voice) - {rec.channel.guild}
      ensures hangup.Closed? ==>
        && Drained(old(sink.View()), sink.View(), cuts, now)
        && StoredUpTo(old(FilePair(json, wav)), FilePair(json, wav), rec, cuts, e, k, ok)
      ensures !hangup.Closed? ==>
        !ok && sink.View() == old(sink.View()) && json == old(json) && wav == old(wav)
      ensures marks == if ok then old(marks) + {rec.meeting} else old(marks)
      ensures ok ==> drainTask.Some? && drainTask.value in pcs
    {
      rec := StartLeave(guild, hangup);
      if !hangup.Closed? {
        return false, rec, [], 0;
      }
      ok, cuts, k := FinishLeave(rec, sink, now, e, d);
    }

    /** The part of `leave` after the voice connection is closed. */
    method FinishLeave(rec: Recording, sink: PcmBuffers.PcmBuffer, now: int, e: Answers, d: nat)
      returns (ok: bool, cuts: seq<PcmBuffers.Cut>, ghost k: nat)
      requires Ready() && rec.meeting in leaves && leaves[rec.meeting] == Leaving(rec, false)
      requires FreshNames(hist, rec.meeting, e) && LeaveJobs(jobs, rec.meeting) == {}
      requires d !in pcs && drainTask != Some(d) && PcmBuffers.WellFormed(sink.View())
      modifies `json, `mtime, `wav, `jobs, `leaves, `marks, `drainTask, `pcs, `cpu, `hist, `trace
      modifies sink
      ensures Ready() && old(trace) <= trace && jobs == old(jobs) && rec.meeting !in leaves
      ensures Drained(old(sink.View()), sink.View(), cuts, now)
      ensures StoredUpTo(old(FilePair(json, wav)), FilePair(json, wav), rec, cuts, e, k, ok)
      ensures marks == if ok then old(marks) + {rec.meeting} else old(marks)
      ensures ok ==> drainTask.Some? && drainTask.value in pcs
    {
      cuts := DrainSink(sink, now);
      ok, k := EndLeave(rec, cuts, e, d);
    }
  }
}
