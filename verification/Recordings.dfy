/**
 What is proved of one buffer holds of what reaches the tables: for every meeting and user each byte heard is in a
 segment that was cut, popped but not yet stored, or still in the buffer, and the times of a row are those of its first
 and last frame.
 */
module Recordings {
  import opened Bytes
  import opened Wrappers
  import opened Pipeline
  import opened PipelineFrames
  import opened PipelineInvariant
  import opened Capturing
  import PcmBuffers
  import Segmentation
  import CompletionSafety

  // ---- each buffer is one of `Segmentation` ----

  /** The cuts of a meeting, stored or to be stored. */
  function CutList(c: Capture, m: nat): seq<PcmBuffers.Cut> {
    StoredCuts(c.pipe.hist.cuts, c.stored, m) + Popped(c, m)
  }

  /** A buffer that is not lost, and what was cut from it, are what its own events make of it. */
  ghost predicate Tied(turns: seq<Segmentation.Event>, silence: int, c: Capture, m: nat) {
    && (m in c.sinks ==> Segmentation.Run(turns, silence) == Segmentation.Result(c.sinks[m], CutList(c, m)))
    && (m !in c.ups ==> turns == [])
  }

  /** A step that leaves the buffer and its cuts alone. */
  lemma TiedSame(turns: seq<Segmentation.Event>, silence: int, c: Capture, t: Capture, m: nat)
    requires Tied(turns, silence, c, m) && c.ups <= t.ups
    requires m in t.sinks ==> m in c.sinks && t.sinks[m] == c.sinks[m] && CutList(t, m) == CutList(c, m)
    ensures Tied(turns, silence, t, m)
  {}

  /** A step that does to them what one turn does. */
  lemma TiedTurn(turns: seq<Segmentation.Event>, e: Segmentation.Event, silence: int, c: Capture, t: Capture, m: nat)
    requires Tied(turns, silence, c, m) && m in c.sinks && m in t.sinks && m in t.ups
    requires Segmentation.Result(t.sinks[m], CutList(t, m)) ==
      Segmentation.Apply(Segmentation.Result(c.sinks[m], CutList(c, m)), e, silence)
    ensures Tied(turns + [e], silence, t, m)
  {
    assert (turns + [e])[..|turns|] == turns;
  }

  lemma {:induction false} NothingStored(cuts: map<Seg, Job>, stored: seq<Seg>, ups: set<nat>, m: nat)
    requires m !in ups && forall seg :: seg in stored ==> seg.meeting in ups
    ensures StoredCuts(cuts, stored, m) == []
  {
    if stored != [] {
      assert stored[|stored| - 1] in stored;
      NothingStored(cuts, stored[..|stored| - 1], ups, m);
    }
  }

  lemma TiedSound(turns: seq<Segmentation.Event>, silence: int, c: Capture, e: Event, m: nat)
    requires e.Sound? && StepOf(c, e, silence).Some? && Tidy(c) && Tied(turns, silence, c, m)
    ensures Tied(turns + TurnOf(e, m), silence, StepOf(c, e, silence).value, m)
  {
    var t := StepOf(c, e, silence).value;
    assert CutList(t, m) == CutList(c, m);
    if e.meeting == m {
      TiedTurn(turns, TurnOf(e, m)[0], silence, c, t, m);
    } else {
      Nothing(turns);
      TiedSame(turns, silence, c, t, m);
    }
  }

  lemma Nothing(turns: seq<Segmentation.Event>)
    ensures turns + [] == turns
  {}

  lemma TiedDrain(turns: seq<Segmentation.Event>, silence: int, c: Capture, e: Event, m: nat)
    requires e.DrainAll? && StepOf(c, e, silence).Some? && Tidy(c) && Tied(turns, silence, c, m)
    ensures Tied(turns + TurnOf(e, m), silence, StepOf(c, e, silence).value, m)
  {
    var t := StepOf(c, e, silence).value;
    if e.meeting == m {
      assert Popped(c, m) == [];
      NoneLeft(StoredCuts(c.pipe.hist.cuts, c.stored, m), Popped(t, m));
      TiedTurn(turns, TurnOf(e, m)[0], silence, c, t, m);
    } else {
      Nothing(turns);
      assert CutList(t, m) == CutList(c, m);
      TiedSame(turns, silence, c, t, m);
    }
  }

  lemma NoneLeft(stored: seq<PcmBuffers.Cut>, cuts: seq<PcmBuffers.Cut>)
    ensures stored + [] + cuts == stored + cuts && stored + cuts + [] == stored + [] + cuts
  {}

  /** What a turn of `flusher` adds to the cuts of a meeting. */
  lemma FlushCuts(c: Capture, e: Event, silence: int, m: nat)
    requires e.Flush? && StepOf(c, e, silence).Some? && Ok(c)
    ensures var b, t := c.sinks[e.meeting], StepOf(c, e, silence).value;
      StoredCuts(t.pipe.hist.cuts, t.stored, m) == StoredCuts(c.pipe.hist.cuts, c.stored, m) +
        if m == e.meeting then PcmBuffers.CutsFrom(b, b.keys, Some(silence), e.now) else []
  {
    var b := c.sinks[e.meeting];
    CutAllCuts(c.pipe, e.guild, PcmBuffers.CutsFrom(b, b.keys, Some(silence), e.now), e.uuids, c.stored, m);
  }

  /** What it does to the buffers. */
  ghost predicate Flushes(c: Capture, t: Capture, k: nat, silence: int, now: int) {
    && k in c.sinks && t.sinks == c.sinks[k := PcmBuffers.Popped(c.sinks[k], Some(silence), now)]
    && t.popped == c.popped && t.ups == c.ups
  }

  lemma FlushSinks(c: Capture, e: Event, silence: int)
    requires e.Flush? && StepOf(c, e, silence).Some?
    ensures Flushes(c, StepOf(c, e, silence).value, e.meeting, silence, e.now)
  {}

  lemma FlushTied(turns: seq<Segmentation.Event>, silence: int, c: Capture, t: Capture, k: nat, now: int)
    requires Tied(turns, silence, c, k) && Flushes(c, t, k, silence, now) && k !in c.popped && k in c.ups
    requires StoredCuts(t.pipe.hist.cuts, t.stored, k) == StoredCuts(c.pipe.hist.cuts, c.stored, k) +
      PcmBuffers.CutsFrom(c.sinks[k], c.sinks[k].keys, Some(silence), now)
    ensures Tied(turns + [Segmentation.Poll(now)], silence, t, k)
  {
    var b := c.sinks[k];
    NoneLeft(StoredCuts(c.pipe.hist.cuts, c.stored, k), PcmBuffers.CutsFrom(b, b.keys, Some(silence), now));
    TiedTurn(turns, Segmentation.Poll(now), silence, c, t, k);
  }

  lemma TiedFlush(turns: seq<Segmentation.Event>, silence: int, c: Capture, e: Event, m: nat)
    requires e.Flush? && StepOf(c, e, silence).Some? && Ok(c) && Tied(turns, silence, c, m)
    ensures Tied(turns + TurnOf(e, m), silence, StepOf(c, e, silence).value, m)
  {
    var t := StepOf(c, e, silence).value;
    FlushCuts(c, e, silence, m);
    FlushSinks(c, e, silence);
    if e.meeting == m {
      NotPopped(c, e.guild);
      FlushTied(turns, silence, c, t, m, e.now);
    } else {
      Nothing(turns);
      FlushElsewhere(turns, silence, c, t, e.meeting, e.now, m);
    }
  }

  lemma FlushElsewhere(turns: seq<Segmentation.Event>, silence: int, c: Capture, t: Capture, k: nat, now: int, m: nat)
    requires Tied(turns, silence, c, m) && Flushes(c, t, k, silence, now) && m != k
    requires StoredCuts(t.pipe.hist.cuts, t.stored, m) == StoredCuts(c.pipe.hist.cuts, c.stored, m) + []
    ensures Tied(turns, silence, t, m)
  {
    assert CutList(t, m) == CutList(c, m);
    TiedSame(turns, silence, c, t, m);
  }

  /** Storing a popped cut does not change the list. */
  lemma StoreNextCuts(c: Capture, e: Event, silence: int, m: nat)
    requires e.StoreNext? && StepOf(c, e, silence).Some? && Ok(c)
    ensures CutList(StepOf(c, e, silence).value, m) == CutList(c, m)
  {
    var k, x := e.meeting, Popped(c, e.meeting)[0];
    var job := Job(c.pipe.mem.leaves[k].rec, x.user, x.pcm, x.start, x.last, true);
    CutAdds(c.pipe, LeaveCut(k, e.uuid, x.user, x.pcm, x.start, x.last), Seg(k, e.uuid), job);
    StoredSnoc(c.pipe.hist.cuts, c.stored, Seg(k, e.uuid), job, m);
    if k == m {
      TakeFirst(StoredCuts(c.pipe.hist.cuts, c.stored, m), c.popped[m]);
    }
  }

  lemma TakeFirst(stored: seq<PcmBuffers.Cut>, popped: seq<PcmBuffers.Cut>)
    requires popped != []
    ensures stored + [popped[0]] + popped[1..] == stored + popped
  {}

  lemma TiedStoreNext(turns: seq<Segmentation.Event>, silence: int, c: Capture, e: Event, m: nat)
    requires e.StoreNext? && StepOf(c, e, silence).Some? && Ok(c) && Tied(turns, silence, c, m)
    ensures Tied(turns + TurnOf(e, m), silence, StepOf(c, e, silence).value, m)
  {
    StoreNextCuts(c, e, silence, m);
    Nothing(turns);
    TiedSame(turns, silence, c, StepOf(c, e, silence).value, m);
  }

  lemma TiedOther(turns: seq<Segmentation.Event>, silence: int, c: Capture, e: Event, m: nat)
    requires e.Other? && StepOf(c, e, silence).Some? && Ok(c) && Tied(turns, silence, c, m)
    ensures Tied(turns + TurnOf(e, m), silence, StepOf(c, e, silence).value, m)
  {
    var t := StepOf(c, e, silence).value;
    OtherCuts(c, e.a);
    Nothing(turns);
    assert CutList(t, m) == CutList(c, m);
    if m in StartedBy(e.a) {
      StartsNew(c, e.a);
      NothingStored(c.pipe.hist.cuts, c.stored, c.ups, m);
      assert turns == [] && CutList(t, m) == [];
    } else {
      TiedSame(turns, silence, c, t, m);
    }
  }

  lemma {:induction false} RunTied(es: seq<Event>, silence: int, m: nat)
    requires After(es, silence).Some?
    ensures Tied(Turns(es, m), silence, After(es, silence).value, m)
  {
    if es != [] {
      var n := |es| - 1;
      RunOk(es[..n], silence);
      RunTied(es[..n], silence, m);
      StepTied(Turns(es[..n], m), silence, After(es[..n], silence).value, es[n], m);
    }
  }

  lemma StepTied(turns: seq<Segmentation.Event>, silence: int, c: Capture, e: Event, m: nat)
    requires StepOf(c, e, silence).Some? && Ok(c) && Tied(turns, silence, c, m)
    ensures Tied(turns + TurnOf(e, m), silence, StepOf(c, e, silence).value, m)
  {
    match e
    case Sound(_, _, _, _) => TiedSound(turns, silence, c, e, m);
    case Flush(_, _, _, _) => TiedFlush(turns, silence, c, e, m);
    case DrainAll(_, _) => TiedDrain(turns, silence, c, e, m);
    case StoreNext(_, _) => TiedStoreNext(turns, silence, c, e, m);
    case Other(_) => TiedOther(turns, silence, c, e, m);
  }

  /** A buffer that is not lost is in the state, and what was cut from it is exactly the list, in order, that a buffer
      alone would have and yield after the same writes, polls and `drain_all`; so all theorems of `Segmentation` hold of
      the sound that reaches the disk. And the segments counted are all that were ever cut, each once. */
  lemma SinkIsSegmentation(es: seq<Event>, silence: int, c: Capture, m: nat)
    requires Reaches(es, silence, c) && m in c.sinks
    ensures Segmentation.Run(Turns(es, m), silence) == Segmentation.Result(c.sinks[m], CutList(c, m))
    ensures Listed(c)
  {
    assert After(es, silence) == Some(c);
    RunTied(es, silence, m);
    ReachesOk(es, silence, c);
  }

  /** Conservation from end to end. For a meeting whose buffer is not lost, what was heard of a user is, in order, the
      sound of the segments cut for that user, of what `leave` popped and has yet to store, and of the live buffer. */
  lemma SoundConserved(es: seq<Event>, silence: int, c: Capture, m: nat, u: User)
    requires Reaches(es, silence, c) && m in c.sinks
    ensures BytesHeard(es, m, u) ==
      BytesStored(c, m, u) + Segmentation.BytesCut(Popped(c, m), u) + PcmBuffers.Live(c.sinks[m], u)
    ensures Listed(c)
  {
    SinkIsSegmentation(es, silence, c, m);
    Segmentation.Conservation(Turns(es, m), silence, u);
    Segmentation.BytesCutAppend(StoredCuts(c.pipe.hist.cuts, c.stored, m), Popped(c, m), u);
  }

  lemma {:induction false} StoredMember(cuts: map<Seg, Job>, stored: seq<Seg>, seg: Seg)
    requires seg in stored && seg in cuts
    ensures CutOfJob(cuts[seg]) in StoredCuts(cuts, stored, seg.meeting)
  {
    if seg in stored[..|stored| - 1] {
      StoredMember(cuts, stored[..|stored| - 1], seg);
    }
  }

  /** The sound and the times of a segment: it is all that was heard of its user from write `i`, the first non-empty
      one since the user's previous segment, to event `n`, which ended it; and its times are those of writes `i` and
      `j`, the last one. */
  ghost predicate HeardAs(turns: seq<Segmentation.Event>, silence: int, job: Job, n: nat, i: nat, j: nat) {
    Segmentation.CutBy(turns, silence, CutOfJob(job), n, i, j)
  }

  lemma SegmentTimes(es: seq<Event>, silence: int, c: Capture, seg: Seg)
    requires Reaches(es, silence, c) && seg in c.pipe.hist.cuts && seg.meeting in c.sinks
    ensures exists n: nat, i: nat, j: nat :: HeardAs(Turns(es, seg.meeting), silence, c.pipe.hist.cuts[seg], n, i, j)
  {
    var turns, cut := Turns(es, seg.meeting), CutOfJob(c.pipe.hist.cuts[seg]);
    SinkIsSegmentation(es, silence, c, seg.meeting);
    StoredMember(c.pipe.hist.cuts, c.stored, seg);
    Segmentation.CutSpan(turns, silence, cut);
    var n: nat, i: nat, j: nat :| Segmentation.CutBy(turns, silence, cut, n, i, j);
    assert HeardAs(turns, silence, c.pipe.hist.cuts[seg], n, i, j);
  }

  /** A row says when its segment was spoken: its start and end are the times, since the start of the recording, of the
      first non-empty frame of its user since the user's previous segment and of the last one before a silence of the
      threshold or the end of the recording. */
  ghost predicate RowTold(turns: seq<Segmentation.Event>, silence: int, job: Job, row: Row, n: nat, i: nat, j: nat) {
    && HeardAs(turns, silence, job, n, i, j) && i <= j < n < |turns|
    && row.meta.t0 == turns[i].now - job.rec.base && row.meta.t1 == turns[j].now - job.rec.base
    && Segmentation.Writes(turns[i], job.user) && Segmentation.Writes(turns[j], job.user)
  }

  lemma RowTimes(es: seq<Event>, silence: int, c: Capture, row: Row)
    requires Reaches(es, silence, c) && row in c.pipe.db.rows && row.seg.meeting in c.sinks
    ensures row.seg in c.pipe.hist.cuts
    ensures exists n: nat, i: nat, j: nat ::
      RowTold(Turns(es, row.seg.meeting), silence, c.pipe.hist.cuts[row.seg], row, n, i, j)
  {
    var turns := Turns(es, row.seg.meeting);
    PipeReachable(es, silence, c);
    RowMade(c.pipe, row);
    var job := c.pipe.hist.cuts[row.seg];
    SegmentTimes(es, silence, c, row.seg);
    var n: nat, i: nat, j: nat :| HeardAs(turns, silence, job, n, i, j);
    assert RowTold(turns, silence, job, row, n, i, j);
  }

  lemma RowMade(s: State, row: Row)
    requires Reachable(s) && row in s.db.rows
    ensures row.seg in s.hist.cuts
    ensures var job := s.hist.cuts[row.seg];
      row.meta.t0 == job.t0 - job.rec.base && row.meta.t1 == job.t1 - job.rec.base
  {
    ReachableInv(s);
    var i :| 0 <= i < |s.db.rows| && s.db.rows[i] == row;
  }

  /** A crash loses every buffer, all that was popped or being stored, and nothing that is on disk or in the tables. */
  lemma CrashLosesBuffers(es: seq<Event>, silence: int, c: Capture, t: Capture)
    requires Reaches(es, silence, c) && Reaches(es + [Other(Crash)], silence, t)
    ensures t.sinks == map[] && t.pipe.mem.jobs == map[] && t.pipe.mem.leaves == map[]
    ensures t.pipe.disk == c.pipe.disk && t.pipe.db == c.pipe.db
  {
    var all := es + [Other(Crash)];
    assert all[..|es|] == es && After(es, silence) == Some(c) && After(all, silence) == Some(t);
  }

  // ---- runs without failure ----

  predicate FailureFree(es: seq<Event>) { forall k :: 0 <= k < |es| && es[k].Other? ==> !Fails(es[k].a) }

  /** Nothing is lost, every recording has its buffer from the start of its voice client on, and a marked meeting has
      nothing left to store. */
  ghost predicate Complete(c: Capture) {
    && c.pipe.hist.lost == {}
    && (forall m :: m in c.pipe.hist.left ==> m in c.sinks && m in c.drained && Popped(c, m) == [])
    && Buffered(c)
  }

  ghost predicate Buffered(c: Capture) {
    && (forall g :: g in c.pipe.mem.active ==> c.pipe.mem.active[g].meeting in c.sinks)
    && c.pipe.mem.leaves.Keys <= c.sinks.Keys
    && (forall j, m :: IsJoining(c.pipe.mem.joins, j, m) ==> m in c.sinks)
  }

  lemma FlushComplete(c: Capture, e: Event, silence: int)
    requires Reachable(c.pipe) && Complete(c) && e.Flush? && StepOf(c, e, silence).Some?
    ensures Complete(StepOf(c, e, silence).value)
  {
    var b := c.sinks[c.pipe.mem.active[e.guild].meeting];
    CutAllFrame(c.pipe, e.guild, PcmBuffers.CutsFrom(b, b.keys, Some(silence), e.now), e.uuids);
  }

  lemma OtherComplete(c: Capture, a: Action)
    requires Reachable(c.pipe) && Complete(c) && !Fails(a) && OtherStep(c, a).Some?
    ensures Complete(OtherStep(c, a).value)
  {
    LostAndLeft(c.pipe, a);
    DroppedIsGone(c.pipe, a);
    OtherBuffered(c, a);
  }

  /** A meeting whose buffer is dropped without a failure is nowhere any more. */
  ghost predicate Gone(t: State, m: nat) {
    && m !in t.hist.left && m !in t.mem.leaves
    && (forall g :: g in t.mem.active ==> t.mem.active[g].meeting != m)
    && (forall j :: !IsJoining(t.mem.joins, j, m))
  }

  lemma DroppedIsGone(s: State, a: Action)
    requires Reachable(s) && Next(s, a).Some? && !Fails(a)
    ensures forall m :: Drops(a, s, Next(s, a).value, m) ==> Gone(Next(s, a).value, m)
  {
    if a.JoinClose? || a.JoinAbort? {
      ReachableInv(s);
      GivenUpIsGone(s, a);
    }
  }

  lemma GivenUpIsGone(s: State, a: Action)
    requires Lifecycle(s) && (a.JoinClose? || a.JoinAbort?) && JoinStep(s, a).Some?
    ensures forall m :: IsJoining(s.mem.joins, a.j, m) ==> Gone(JoinStep(s, a).value, m)
  {}

  lemma OtherBuffered(c: Capture, a: Action)
    requires Reachable(c.pipe) && Buffered(c) && !Fails(a) && OtherStep(c, a).Some?
    requires forall m :: Drops(a, c.pipe, OtherStep(c, a).value.pipe, m) ==> Gone(OtherStep(c, a).value.pipe, m)
    ensures Buffered(OtherStep(c, a).value)
  {
    if a.JoinUp? || a.JoinInsert? {
      JoinsKept(c.pipe, a);
      UpBuffered(c, a);
    } else if a.LeavePop? {
      PopBuffered(c, a);
    } else {
      FewerCalls(c.pipe, a);
      FrameBuffered(c, a);
    }
  }

  lemma FewerCalls(s: State, a: Action)
    requires Reachable(s) && Next(s, a).Some? && !a.JoinUp? && !a.JoinInsert? && !a.LeavePop?
    ensures TidyFrame(s, Next(s, a).value)
  {
    if OfJoin(a) {
      JoinFrame(s, a);
    } else {
      ElseFrame(s, a);
    }
  }

  lemma FrameBuffered(c: Capture, a: Action)
    requires Buffered(c) && !a.Crash? && OtherStep(c, a).Some? && TidyFrame(c.pipe, OtherStep(c, a).value.pipe)
    requires forall m :: Drops(a, c.pipe, OtherStep(c, a).value.pipe, m) ==> Gone(OtherStep(c, a).value.pipe, m)
    ensures Buffered(OtherStep(c, a).value)
  {}

  lemma PopBuffered(c: Capture, a: Action)
    requires Buffered(c) && a.LeavePop? && OtherStep(c, a).Some?
    ensures Buffered(OtherStep(c, a).value)
  {}

  lemma UpBuffered(c: Capture, a: Action)
    requires Buffered(c) && (a.JoinUp? || a.JoinInsert?) && OtherStep(c, a).Some?
    requires forall j, m ::
      IsJoining(OtherStep(c, a).value.pipe.mem.joins, j, m) ==> IsJoining(c.pipe.mem.joins, j, m) || m in StartedBy(a)
    ensures Buffered(OtherStep(c, a).value)
  {
    if a.JoinUp? {
      assert IsJoining(c.pipe.mem.joins, a.j, c.pipe.mem.joins[a.j].rec.meeting);
    }
  }

  lemma LostAndLeft(s: State, a: Action)
    requires Reachable(s) && Next(s, a).Some? && !Fails(a)
    ensures var t := Next(s, a).value;
      t.hist.lost == s.hist.lost && t.hist.left == s.hist.left + if a.LeaveMark? then {a.meeting} else {}
  {
    ReachableInv(s);
    LostStays(s, a);
    if a.LeaveMark? {
      MarkLeaves(s, a);
    }
  }

  lemma LostStays(s: State, a: Action)
    requires CpuOk(s) && Next(s, a).Some? && !Fails(a)
    ensures Next(s, a).value.hist.lost == s.hist.lost
    ensures !a.LeaveMark? ==> Next(s, a).value.hist.left == s.hist.left
  {
    StepFootprint(s, a);
  }

  lemma MarkLeaves(s: State, a: Action)
    requires a.LeaveMark? && s.mem.cpu.Free? && StoreStep(s, a).Some?
    ensures StoreStep(s, a).value.hist.left == s.hist.left + {a.meeting}
  {}

  lemma StepComplete(c: Capture, e: Event, silence: int)
    requires Ok(c) && Complete(c) && StepOf(c, e, silence).Some? && (e.Other? ==> !Fails(e.a))
    ensures Complete(StepOf(c, e, silence).value)
  {
    match e
    case Flush(_, _, _, _) => FlushComplete(c, e, silence);
    case Other(a) => OtherComplete(c, a);
    case StoreNext(m, _) => StoreNextComplete(c, e);
    case DrainAll(_, _) => DrainComplete(c, e);
    case Sound(_, _, _, _) =>
  }

  lemma StoreNextComplete(c: Capture, e: Event)
    requires Reachable(c.pipe) && Complete(c) && e.StoreNext? && StoreNextStep(c, e).Some?
    ensures Complete(StoreNextStep(c, e).value)
  {
    var x, m := Popped(c, e.meeting)[0], e.meeting;
    CutAdds(c.pipe, LeaveCut(m, e.uuid, x.user, x.pcm, x.start, x.last), Seg(m, e.uuid),
            Job(c.pipe.mem.leaves[m].rec, x.user, x.pcm, x.start, x.last, true));
  }

  lemma DrainComplete(c: Capture, e: Event)
    requires Complete(c) && e.DrainAll? && DrainAllStep(c, e).Some?
    ensures Complete(DrainAllStep(c, e).value)
  {}

  lemma {:induction false} RunComplete(es: seq<Event>, silence: int)
    requires After(es, silence).Some? && FailureFree(es)
    ensures Complete(After(es, silence).value)
  {
    if es != [] {
      RunOk(es[..|es| - 1], silence);
      RunComplete(es[..|es| - 1], silence);
      StepComplete(After(es[..|es| - 1], silence).value, es[|es| - 1], silence);
    }
  }

  lemma CompleteFates(c: Capture, seg: Seg)
    requires Ok(c) && Complete(c) && seg in c.stored
    ensures var p := c.pipe; seg in p.mem.jobs.Keys + p.hist.short + p.hist.spilled
    ensures var p := c.pipe; p.mem.jobs.Keys !! p.hist.short !! p.hist.spilled
  {
    ReachableInv(c.pipe);
  }

  /** Without crash or failure, all that was said in a meeting is kept once `/leave` marked it: each user's bytes are,
      in order, those of the segments cut for that user, and each of these segments is in flight, dropped for being
      short, or spilled, and in exactly one of these. */
  lemma RecordedIsStored(es: seq<Event>, silence: int, c: Capture, m: nat, u: User)
    requires Reaches(es, silence, c) && FailureFree(es) && m in c.pipe.hist.left
    ensures BytesHeard(es, m, u) == BytesStored(c, m, u)
    ensures forall seg :: seg in c.stored ==> seg in c.pipe.mem.jobs.Keys + c.pipe.hist.short + c.pipe.hist.spilled
    ensures c.pipe.mem.jobs.Keys !! c.pipe.hist.short !! c.pipe.hist.spilled
  {
    assert After(es, silence) == Some(c);
    RunOk(es, silence);
    RunComplete(es, silence);
    MarkedIsStored(es, silence, c, m, u);
    forall seg | seg in c.stored
      ensures seg in c.pipe.mem.jobs.Keys + c.pipe.hist.short + c.pipe.hist.spilled
    {
      CompleteFates(c, seg);
    }
    CompletePartition(c);
  }

  lemma MarkedIsStored(es: seq<Event>, silence: int, c: Capture, m: nat, u: User)
    requires Reaches(es, silence, c) && Ok(c) && Complete(c) && m in c.pipe.hist.left
    ensures BytesHeard(es, m, u) == BytesStored(c, m, u)
  {
    SoundConserved(es, silence, c, m, u);
    assert PcmBuffers.Live(c.sinks[m], u) == [] && Segmentation.BytesCut(Popped(c, m), u) == [];
  }

  lemma CompletePartition(c: Capture)
    requires Ok(c)
    ensures c.pipe.mem.jobs.Keys !! c.pipe.hist.short !! c.pipe.hist.spilled
  {
    ReachableInv(c.pipe);
  }

  /** What a completed meeting means, from end to end. Without crash or failure, and if no store task of it could spill
      when it was marked, all that was heard of a user is in its segments, in order; and all of these that are long
      enough were answered by the worker, exactly if no read of its files failed. */
  lemma CompletedIsHeard(es: seq<Event>, silence: int, c: Capture, m: nat, u: User)
    requires Reaches(es, silence, c) && FailureFree(es)
    requires IsCompleted(c.pipe, m) && m !in c.pipe.hist.dirty
    ensures BytesHeard(es, m, u) == BytesStored(c, m, u)
    ensures Listed(c)
    ensures (forall seg :: seg in c.stored && seg.meeting == m ==>
               (Settled(c.pipe, seg) <==> !TooShort(c.pipe.hist.cuts[seg].pcm)))
            <==> CompletionSafety.UnreadOf(c.pipe, m) == {}
  {
    PipeReachable(es, silence, c);
    CompletionSafety.CompletedReachable(c.pipe, m);
    RecordedIsStored(es, silence, c, m, u);
    ReachesOk(es, silence, c);
    LongIsSettled(c, m);
  }

  lemma LongIsSettled(c: Capture, m: nat)
    requires Reachable(c.pipe) && Listed(c) && m in c.pipe.hist.left && m !in c.pipe.hist.dirty
    requires CompletionSafety.AllSettled(c.pipe, m) <==> CompletionSafety.UnreadOf(c.pipe, m) == {}
    requires forall seg :: seg in c.stored ==> seg in c.pipe.mem.jobs.Keys + c.pipe.hist.short + c.pipe.hist.spilled
    ensures (forall seg :: seg in c.stored && seg.meeting == m ==>
               (Settled(c.pipe, seg) <==> !TooShort(c.pipe.hist.cuts[seg].pcm)))
            <==> CompletionSafety.UnreadOf(c.pipe, m) == {}
  {
    forall seg | seg in c.stored && seg.meeting == m
      ensures Settled(c.pipe, seg) ==> !TooShort(c.pipe.hist.cuts[seg].pcm)
      ensures seg in c.pipe.hist.spilled <==> !TooShort(c.pipe.hist.cuts[seg].pcm)
    {
      LongIsSpilled(c.pipe, seg);
    }
    SpilledIsStored(c);
  }

  lemma SpilledIsStored(c: Capture)
    requires Reachable(c.pipe) && Listed(c)
    ensures forall seg :: seg in c.pipe.hist.spilled ==> seg in c.stored
  {
    ReachableInv(c.pipe);
  }

  /** Of a meeting that was marked with no store task that could spill, a segment is spilled if it is long enough. */
  lemma LongIsSpilled(s: State, seg: Seg)
    requires Reachable(s) && seg.meeting in s.hist.left && seg.meeting !in s.hist.dirty
    requires seg in s.mem.jobs.Keys + s.hist.short + s.hist.spilled
    ensures seg in s.hist.cuts && (seg in s.hist.spilled <==> !TooShort(s.hist.cuts[seg].pcm))
    ensures Settled(s, seg) ==> seg in s.hist.spilled
  {
    ReachableInv(s);
  }
}
