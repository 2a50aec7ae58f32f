/**
 The buffers and the step machine together: `flusher` and `leave` cut nothing but what `PcmBuffer` yields, and sound may
 come between any two steps.
 */
module Capturing {
  import opened Bytes
  import opened Wrappers
  import opened Pipeline
  import opened PipelineFrames
  import opened PipelineInvariant
  import PcmBuffers
  import Segmentation
  import CompletionSafety
  import StatusMachine

  /** The machine, the buffer of each meeting, and what `leave` popped and has yet to store; `drained` are the meetings
      whose `leave` has popped. As history, the meetings that ever had a buffer, and all segments that were cut, in
      order. */
  datatype Capture = Capture(pipe: State, sinks: map<nat, PcmBuffers.Buffer>, popped: map<nat, seq<PcmBuffers.Cut>>,
                             drained: set<nat>, ups: set<nat>, stored: seq<Seg>)

  const START := Capture(INIT, map[], map[], {}, {}, [])

  datatype Event =
    | Sound(meeting: nat, user: User, data: seq<Byte>, now: int)
    | Flush(meeting: nat, guild: Guild, now: int, uuids: seq<string>)
    | DrainAll(meeting: nat, now: int)
    | StoreNext(meeting: nat, uuid: string)
    | Other(a: Action)

  /** A store task for each of some cuts. */
  function CutAll(s: State, g: Guild, cuts: seq<PcmBuffers.Cut>, uuids: seq<string>): Option<State>
    requires |cuts| == |uuids|
  {
    if cuts == [] then Some(s)
    else
      var n := |cuts| - 1;
      match CutAll(s, g, cuts[..n], uuids[..n])
      case None => None
      case Some(t) => Next(t, Cut(g, uuids[n], cuts[n].user, cuts[n].pcm, cuts[n].start, cuts[n].last))
  }

  function Segs(m: nat, uuids: seq<string>): seq<Seg> { seq(|uuids|, i requires 0 <= i < |uuids| => Seg(m, uuids[i])) }

  /** Whether a step ends the `leave` of a meeting with an exception, and with it drops what that has popped, or its
      `join` before it is recording. */
  predicate Drops(a: Action, before: State, after: State, m: nat) {
    || (Fails(a) && m in before.mem.leaves && m !in after.mem.leaves)
    || ((a.JoinClose? || a.JoinAbort?) && IsJoining(before.mem.joins, a.j, m))
  }

  /** A `join` has the row and the buffer of the meeting, and its voice client is starting. */
  predicate IsJoining(joins: map<nat, Join>, j: nat, m: nat) {
    j in joins && joins[j].Inserted? && joins[j].rec.meeting == m
  }

  /** The meeting that an action makes a buffer for: the voice client writes to it as soon as it starts, before the
      recording is entered in `active`. */
  function StartedBy(a: Action): set<nat> { if a.JoinInsert? then {a.meeting} else {} }

  /** Buffers whose owner is gone are lost. */
  function SinksAfter(c: Capture, a: Action, t: State): map<nat, PcmBuffers.Buffer> {
    if a.Crash? then map[]
    else
      map m | m in c.sinks.Keys + StartedBy(a) && !Drops(a, c.pipe, t, m) ::
        if m in StartedBy(a) then PcmBuffers.EMPTY else c.sinks[m]
  }

  function FlushStep(c: Capture, e: Event, silence: int): Option<Capture>
    requires e.Flush?
  {
    var m := e.meeting;
    if e.guild !in c.pipe.mem.active || c.pipe.mem.active[e.guild].meeting != m || m !in c.sinks then None
    else
      var b := c.sinks[m];
      var cuts := PcmBuffers.CutsFrom(b, b.keys, Some(silence), e.now);
      if |cuts| != |e.uuids| then None
      else
        match CutAll(c.pipe, e.guild, cuts, e.uuids)
        case None => None
        case Some(t) =>
          Some(c.(pipe := t, sinks := c.sinks[m := PcmBuffers.Popped(b, Some(silence), e.now)],
                  stored := c.stored + Segs(m, e.uuids)))
  }

  function DrainAllStep(c: Capture, e: Event): Option<Capture>
    requires e.DrainAll?
  {
    var m := e.meeting;
    if m in c.sinks && m in c.pipe.mem.leaves && !c.pipe.mem.leaves[m].connected && m !in c.drained then
      var b := c.sinks[m];
      Some(c.(sinks := c.sinks[m := PcmBuffers.Popped(b, None, e.now)], drained := c.drained + {m},
              popped := c.popped[m := PcmBuffers.CutsFrom(b, b.keys, None, e.now)]))
    else None
  }

  function Popped(c: Capture, m: nat): seq<PcmBuffers.Cut> { if m in c.popped then c.popped[m] else [] }

  /** The stores of a `leave` come one after the other. */
  function StoreNextStep(c: Capture, e: Event): Option<Capture>
    requires e.StoreNext?
  {
    var m := e.meeting;
    if Popped(c, m) == [] || LeaveJobs(c.pipe.mem.jobs, m) != {} then None
    else
      var x := Popped(c, m)[0];
      match Next(c.pipe, LeaveCut(m, e.uuid, x.user, x.pcm, x.start, x.last))
      case None => None
      case Some(t) =>
        Some(c.(pipe := t, popped := c.popped[m := c.popped[m][1..]], stored := c.stored + [Seg(m, e.uuid)]))
  }

  function OtherStep(c: Capture, a: Action): Option<Capture> {
    if a.Cut? || a.LeaveCut? || (a.LeaveMark? && !(a.meeting in c.drained && Popped(c, a.meeting) == [])) then None
    else
      match Next(c.pipe, a)
      case None => None
      case Some(t) => Some(c.(pipe := t, sinks := SinksAfter(c, a, t), ups := c.ups + StartedBy(a)))
  }

  /** One step; sound arrives until `leave` has popped. */
  function StepOf(c: Capture, e: Event, silence: int): Option<Capture> {
    match e
    case Sound(m, u, data, now) =>
      if m in c.sinks && m !in c.drained
      then Some(c.(sinks := c.sinks[m := PcmBuffers.Written(c.sinks[m], u, data, now)]))
      else None
    case Flush(_, _, _, _) => FlushStep(c, e, silence)
    case DrainAll(_, _) => DrainAllStep(c, e)
    case StoreNext(_, _) => StoreNextStep(c, e)
    case Other(a) => OtherStep(c, a)
  }

  function After(es: seq<Event>, silence: int): Option<Capture> {
    if es == [] then Some(START)
    else
      match After(es[..|es| - 1], silence)
      case None => None
      case Some(c) => StepOf(c, es[|es| - 1], silence)
  }

  /** A run that ends in `c`. The quantifier keeps statements about it from unfolding it. */
  ghost predicate Reaches(es: seq<Event>, silence: int, c: Capture) {
    forall run {:trigger After(run, silence)} :: run == es ==> After(run, silence) == Some(c)
  }

  // ---- what is counted ----

  /** What of an event concerns the buffer of a meeting. */
  function TurnOf(e: Event, m: nat): seq<Segmentation.Event> {
    match e
    case Sound(k, u, data, now) => if k == m then [Segmentation.Write(u, data, now)] else []
    case Flush(k, _, now, _) => if k == m then [Segmentation.Poll(now)] else []
    case DrainAll(k, now) => if k == m then [Segmentation.DrainAll(now)] else []
    case _ => []
  }

  function Turns(es: seq<Event>, m: nat): seq<Segmentation.Event> {
    if es == [] then [] else Turns(es[..|es| - 1], m) + TurnOf(es[|es| - 1], m)
  }

  /** All that was heard of a user in a meeting. */
  function BytesHeard(es: seq<Event>, m: nat, u: User): seq<Byte> { Segmentation.BytesWritten(Turns(es, m), u) }

  function CutOfJob(job: Job): PcmBuffers.Cut { PcmBuffers.Cut(job.user, job.pcm, job.t0, job.t1) }

  /** What the segments of a meeting were cut from, in the order they were cut. */
  function StoredCuts(cuts: map<Seg, Job>, stored: seq<Seg>, m: nat): seq<PcmBuffers.Cut> {
    if stored == [] then []
    else
      var seg := stored[|stored| - 1];
      StoredCuts(cuts, stored[..|stored| - 1], m) +
        if seg.meeting == m && seg in cuts then [CutOfJob(cuts[seg])] else []
  }

  /** The sound of those of a user. */
  function BytesStored(c: Capture, m: nat, u: User): seq<Byte> {
    Segmentation.BytesCut(StoredCuts(c.pipe.hist.cuts, c.stored, m), u)
  }

  /** Only segments that were cut are counted, so cutting another adds one at the end. */
  lemma {:induction false} StoredKeeps(cuts: map<Seg, Job>, more: map<Seg, Job>, stored: seq<Seg>, m: nat)
    requires forall seg :: seg in stored ==> seg in cuts && seg in more && more[seg] == cuts[seg]
    ensures StoredCuts(more, stored, m) == StoredCuts(cuts, stored, m)
  {
    if stored != [] {
      StoredKeeps(cuts, more, stored[..|stored| - 1], m);
    }
  }

  lemma StoredSnoc(cuts: map<Seg, Job>, stored: seq<Seg>, seg: Seg, job: Job, m: nat)
    requires seg !in cuts && forall x :: x in stored ==> x in cuts
    ensures StoredCuts(cuts[seg := job], stored + [seg], m) ==
      StoredCuts(cuts, stored, m) + if seg.meeting == m then [CutOfJob(job)] else []
  {
    assert (stored + [seg])[..|stored|] == stored;
    StoredKeeps(cuts, cuts[seg := job], stored, m);
  }

  /** `stored` lists the segments that were cut, each once. */
  ghost predicate Listed(c: Capture) {
    && (forall seg :: seg in c.stored <==> seg in c.pipe.hist.cuts)
    && (forall i, j :: 0 <= i < j < |c.stored| ==> c.stored[i] != c.stored[j])
  }

  // ---- the invariant ----

  /** Only meetings with a buffer of their own, now or before, have anything; and what has not been left yet was not
      drained. */
  ghost predicate Tidy(c: Capture) {
    && (forall seg :: seg in c.stored ==> seg.meeting in c.ups)
    && c.popped.Keys <= c.drained && c.sinks.Keys + c.drained <= c.ups <= c.pipe.db.meetings.Keys
    && (forall g :: g in c.pipe.mem.active ==>
          c.pipe.mem.active[g].meeting in c.ups && c.pipe.mem.active[g].meeting !in c.drained)
    && c.pipe.mem.leaves.Keys <= c.ups
    && (forall j, m :: IsJoining(c.pipe.mem.joins, j, m) ==> m in c.ups && m !in c.drained)
  }

  ghost predicate SinksOk(c: Capture) {
    && (forall m :: m in c.sinks ==> PcmBuffers.WellFormed(c.sinks[m]))
    && (forall m, u :: m in c.sinks && m in c.drained ==> PcmBuffers.Live(c.sinks[m], u) == [])
  }

  ghost predicate Ok(c: Capture) { Reachable(c.pipe) && Listed(c) && Tidy(c) && SinksOk(c) }

  // ---- sound ----

  lemma SoundKeeps(c: Capture, e: Event, silence: int)
    requires Ok(c) && e.Sound? && StepOf(c, e, silence).Some?
    ensures Ok(StepOf(c, e, silence).value)
  {
    SoundSinks(c, e, silence);
    SoundTidy(c, e, silence);
  }

  lemma SoundSinks(c: Capture, e: Event, silence: int)
    requires SinksOk(c) && e.Sound? && StepOf(c, e, silence).Some?
    ensures SinksOk(StepOf(c, e, silence).value)
  {
    PcmBuffers.WrittenWellFormed(c.sinks[e.meeting], e.user, e.data, e.now);
  }

  lemma SoundTidy(c: Capture, e: Event, silence: int)
    requires Tidy(c) && e.Sound? && StepOf(c, e, silence).Some?
    ensures Tidy(StepOf(c, e, silence).value)
  {}

  // ---- leave pops the buffer ----

  lemma DrainKeeps(c: Capture, e: Event, silence: int)
    requires Ok(c) && e.DrainAll? && StepOf(c, e, silence).Some?
    ensures Ok(StepOf(c, e, silence).value)
  {
    DrainSinks(c, e);
    LeavingNotActive(c.pipe, e.meeting);
    DrainTidy(c, e);
  }

  lemma DrainTidy(c: Capture, e: Event)
    requires Tidy(c) && e.DrainAll? && DrainAllStep(c, e).Some?
    requires forall g :: g in c.pipe.mem.active ==> c.pipe.mem.active[g].meeting != e.meeting
    requires forall j :: !IsJoining(c.pipe.mem.joins, j, e.meeting)
    ensures Tidy(DrainAllStep(c, e).value)
  {}

  lemma DrainSinks(c: Capture, e: Event)
    requires SinksOk(c) && e.DrainAll? && DrainAllStep(c, e).Some?
    ensures SinksOk(DrainAllStep(c, e).value)
  {
    PcmBuffers.PoppedWellFormed(c.sinks[e.meeting], None, e.now);
    assert forall u :: PcmBuffers.Live(DrainAllStep(c, e).value.sinks[e.meeting], u) == [];
  }

  lemma LeavingNotActive(s: State, m: nat)
    requires Reachable(s) && m in s.mem.leaves
    ensures forall g :: g in s.mem.active ==> s.mem.active[g].meeting != m
    ensures forall j :: !IsJoining(s.mem.joins, j, m)
  {
    ReachableInv(s);
  }

  // ---- one cut is stored ----

  /** A cut becomes a segment: the table of cuts grows by one. */
  lemma CutAdds(s: State, a: Action, seg: Seg, job: Job)
    requires Reachable(s) && Next(s, a).Some?
    requires (a.Cut? && a.guild in s.mem.active && seg == Seg(s.mem.active[a.guild].meeting, a.uuid)
              && job == Job(s.mem.active[a.guild], a.user, a.pcm, a.t0, a.t1, false))
          || (a.LeaveCut? && a.meeting in s.mem.leaves && seg == Seg(a.meeting, a.uuid)
              && job == Job(s.mem.leaves[a.meeting].rec, a.user, a.pcm, a.t0, a.t1, true))
    ensures var t := Next(s, a).value;
      && seg !in s.hist.cuts && t.hist.cuts == s.hist.cuts[seg := job]
      && t == s.(mem := s.mem.(jobs := s.mem.jobs[seg := job]), hist := s.hist.(cuts := t.hist.cuts))
      && Reachable(t)
  {
    CompletionSafety.ReachableStep(s, a);
  }

  lemma ListedSnoc(cuts: map<Seg, Job>, stored: seq<Seg>, seg: Seg, job: Job)
    requires seg !in cuts && (forall x :: x in stored <==> x in cuts)
    requires forall i, j :: 0 <= i < j < |stored| ==> stored[i] != stored[j]
    ensures forall x :: x in stored + [seg] <==> x in cuts[seg := job]
    ensures forall i, j :: 0 <= i < j < |stored + [seg]| ==> (stored + [seg])[i] != (stored + [seg])[j]
  {}

  lemma StoreNextKeeps(c: Capture, e: Event, silence: int)
    requires Ok(c) && e.StoreNext? && StepOf(c, e, silence).Some?
    ensures Ok(StepOf(c, e, silence).value)
  {
    var x, m := Popped(c, e.meeting)[0], e.meeting;
    var a := LeaveCut(m, e.uuid, x.user, x.pcm, x.start, x.last);
    var job := Job(c.pipe.mem.leaves[m].rec, x.user, x.pcm, x.start, x.last, true);
    CutAdds(c.pipe, a, Seg(m, e.uuid), job);
    ListedSnoc(c.pipe.hist.cuts, c.stored, Seg(m, e.uuid), job);
  }

  // ---- a turn of the flusher ----

  lemma {:induction false} CutAllFrame(s: State, g: Guild, cuts: seq<PcmBuffers.Cut>, uuids: seq<string>)
    requires |cuts| == |uuids| && Reachable(s) && g in s.mem.active && CutAll(s, g, cuts, uuids).Some?
    ensures var t := CutAll(s, g, cuts, uuids).value;
      Reachable(t) && t == s.(mem := s.mem.(jobs := t.mem.jobs), hist := s.hist.(cuts := t.hist.cuts))
  {
    if cuts != [] {
      var n := |cuts| - 1;
      CutAllFrame(s, g, cuts[..n], uuids[..n]);
      CutAllLast(s, g, cuts, uuids);
    }
  }

  /** The last cut of a turn. */
  lemma CutAllLast(s: State, g: Guild, cuts: seq<PcmBuffers.Cut>, uuids: seq<string>)
    requires |cuts| == |uuids| > 0 && g in s.mem.active && CutAll(s, g, cuts, uuids).Some?
    requires var mid := CutAll(s, g, cuts[..|cuts| - 1], uuids[..|cuts| - 1]);
      mid.Some? && Reachable(mid.value) && mid.value.mem.active == s.mem.active
    ensures var n := |cuts| - 1;
      var mid, t := CutAll(s, g, cuts[..n], uuids[..n]).value, CutAll(s, g, cuts, uuids).value;
      var rec, x := s.mem.active[g], cuts[n];
      var seg, job := Seg(rec.meeting, uuids[n]), Job(rec, x.user, x.pcm, x.start, x.last, false);
      && seg !in mid.hist.cuts && t.hist.cuts == mid.hist.cuts[seg := job]
      && t == mid.(mem := mid.mem.(jobs := mid.mem.jobs[seg := job]), hist := mid.hist.(cuts := t.hist.cuts))
      && Reachable(t)
  {
    var n := |cuts| - 1;
    var mid, x, rec := CutAll(s, g, cuts[..n], uuids[..n]).value, cuts[n], s.mem.active[g];
    CutAdds(mid, Cut(g, uuids[n], x.user, x.pcm, x.start, x.last), Seg(rec.meeting, uuids[n]),
            Job(rec, x.user, x.pcm, x.start, x.last, false));
  }

  lemma SegsSnoc(m: nat, uuids: seq<string>, stored: seq<Seg>)
    requires uuids != []
    ensures var n := |uuids| - 1; stored + Segs(m, uuids) == stored + Segs(m, uuids[..n]) + [Seg(m, uuids[n])]
  {}

  lemma {:induction false} CutAllListed(s: State, g: Guild, cuts: seq<PcmBuffers.Cut>, uuids: seq<string>,
                                        stored: seq<Seg>)
    requires |cuts| == |uuids| && Reachable(s) && g in s.mem.active && CutAll(s, g, cuts, uuids).Some?
    requires forall x :: x in stored <==> x in s.hist.cuts
    requires forall i, j :: 0 <= i < j < |stored| ==> stored[i] != stored[j]
    ensures var t, all := CutAll(s, g, cuts, uuids).value, stored + Segs(s.mem.active[g].meeting, uuids);
      && (forall x :: x in all <==> x in t.hist.cuts)
      && (forall i, j :: 0 <= i < j < |all| ==> all[i] != all[j])
  {
    var m := s.mem.active[g].meeting;
    if cuts == [] {
      assert stored + Segs(m, uuids) == stored;
    } else {
      var n := |cuts| - 1;
      var mid := CutAll(s, g, cuts[..n], uuids[..n]).value;
      CutAllListed(s, g, cuts[..n], uuids[..n], stored);
      CutAllFrame(s, g, cuts[..n], uuids[..n]);
      CutAllLast(s, g, cuts, uuids);
      ListedSnoc(mid.hist.cuts, stored + Segs(m, uuids[..n]), Seg(m, uuids[n]),
                 Job(s.mem.active[g], cuts[n].user, cuts[n].pcm, cuts[n].start, cuts[n].last, false));
      SegsSnoc(m, uuids, stored);
    }
  }

  lemma {:induction false} CutAllCuts(s: State, g: Guild, cuts: seq<PcmBuffers.Cut>, uuids: seq<string>,
                                      stored: seq<Seg>, m: nat)
    requires |cuts| == |uuids| && Reachable(s) && g in s.mem.active && CutAll(s, g, cuts, uuids).Some?
    requires forall x :: x in stored <==> x in s.hist.cuts
    requires forall i, j :: 0 <= i < j < |stored| ==> stored[i] != stored[j]
    ensures var t, k := CutAll(s, g, cuts, uuids).value, s.mem.active[g].meeting;
      StoredCuts(t.hist.cuts, stored + Segs(k, uuids), m) ==
        StoredCuts(s.hist.cuts, stored, m) + if m == k then cuts else []
  {
    var k := s.mem.active[g].meeting;
    if cuts == [] {
      assert stored + Segs(k, uuids) == stored;
    } else {
      var n := |cuts| - 1;
      CutAllCuts(s, g, cuts[..n], uuids[..n], stored, m);
      LastCut(s, g, cuts, uuids, stored, m);
      CutsSnoc(StoredCuts(s.hist.cuts, stored, m), cuts);
    }
  }

  lemma CutsSnoc(stored: seq<PcmBuffers.Cut>, cuts: seq<PcmBuffers.Cut>)
    requires cuts != []
    ensures var n := |cuts| - 1; stored + cuts == stored + cuts[..n] + [cuts[n]] && stored + [] == stored
  {}

  lemma LastCut(s: State, g: Guild, cuts: seq<PcmBuffers.Cut>, uuids: seq<string>, stored: seq<Seg>, m: nat)
    requires |cuts| == |uuids| > 0 && Reachable(s) && g in s.mem.active && CutAll(s, g, cuts, uuids).Some?
    requires forall x :: x in stored <==> x in s.hist.cuts
    requires forall i, j :: 0 <= i < j < |stored| ==> stored[i] != stored[j]
    ensures var n := |cuts| - 1;
      var mid, t := CutAll(s, g, cuts[..n], uuids[..n]).value, CutAll(s, g, cuts, uuids).value;
      var k := s.mem.active[g].meeting;
      StoredCuts(t.hist.cuts, stored + Segs(k, uuids), m) ==
        StoredCuts(mid.hist.cuts, stored + Segs(k, uuids[..n]), m) + if m == k then [cuts[n]] else []
  {
    var n, k := |cuts| - 1, s.mem.active[g].meeting;
    var mid, x := CutAll(s, g, cuts[..n], uuids[..n]).value, cuts[n];
    CutAllListed(s, g, cuts[..n], uuids[..n], stored);
    CutAllFrame(s, g, cuts[..n], uuids[..n]);
    CutAllLast(s, g, cuts, uuids);
    StoredSnoc(mid.hist.cuts, stored + Segs(k, uuids[..n]), Seg(k, uuids[n]),
               Job(s.mem.active[g], x.user, x.pcm, x.start, x.last, false), m);
    SegsSnoc(k, uuids, stored);
  }

  lemma FlushKeeps(c: Capture, e: Event, silence: int)
    requires Ok(c) && e.Flush? && StepOf(c, e, silence).Some?
    ensures Ok(StepOf(c, e, silence).value)
  {
    var b := c.sinks[e.meeting];
    var cuts := PcmBuffers.CutsFrom(b, b.keys, Some(silence), e.now);
    CutAllFrame(c.pipe, e.guild, cuts, e.uuids);
    CutAllListed(c.pipe, e.guild, cuts, e.uuids, c.stored);
    PcmBuffers.PoppedWellFormed(b, Some(silence), e.now);
  }

  /** A recording that goes on was not drained. */
  lemma NotPopped(c: Capture, g: Guild)
    requires Tidy(c) && g in c.pipe.mem.active
    ensures c.pipe.mem.active[g].meeting !in c.popped
  {}

  // ---- the other actions ----

  lemma OtherKeeps(c: Capture, a: Action)
    requires Ok(c) && OtherStep(c, a).Some?
    ensures Ok(OtherStep(c, a).value)
  {
    CompletionSafety.ReachableStep(c.pipe, a);
    OtherCuts(c, a);
    OtherTidy(c, a);
    OtherSinks(c, a);
  }

  lemma OtherCuts(c: Capture, a: Action)
    requires Reachable(c.pipe) && OtherStep(c, a).Some?
    ensures OtherStep(c, a).value.pipe.hist.cuts == c.pipe.hist.cuts
  {
    ReachableInv(c.pipe);
    StepFootprint(c.pipe, a);
  }

  lemma StartsNew(c: Capture, a: Action)
    requires Tidy(c) && OtherStep(c, a).Some?
    ensures forall m :: m in StartedBy(a) ==> m !in c.ups && m !in c.sinks && m !in c.drained && m !in c.popped
  {}

  lemma OtherSinks(c: Capture, a: Action)
    requires Tidy(c) && SinksOk(c) && OtherStep(c, a).Some?
    ensures SinksOk(OtherStep(c, a).value)
  {
    StartsNew(c, a);
  }

  /** What of the machine the bookkeeping depends on. */
  ghost predicate TidyFrame(s: State, t: State) {
    && s.db.meetings.Keys <= t.db.meetings.Keys
    && (forall g :: g in t.mem.active ==> g in s.mem.active && t.mem.active[g] == s.mem.active[g])
    && t.mem.leaves.Keys <= s.mem.leaves.Keys
    && (forall j, m :: IsJoining(t.mem.joins, j, m) ==> IsJoining(s.mem.joins, j, m))
  }

  lemma OtherTidy(c: Capture, a: Action)
    requires Reachable(c.pipe) && Tidy(c) && OtherStep(c, a).Some?
    ensures Tidy(OtherStep(c, a).value)
  {
    if OfJoin(a) {
      JoinTidy(c, a);
    } else if a.LeavePop? {
      PopTidy(c, a);
    } else {
      ElseFrame(c.pipe, a);
    }
  }

  lemma PopTidy(c: Capture, a: Action)
    requires Tidy(c) && a.LeavePop? && OtherStep(c, a).Some?
    ensures Tidy(OtherStep(c, a).value)
  {}

  lemma JoinTidy(c: Capture, a: Action)
    requires Tidy(c) && OfJoin(a) && OtherStep(c, a).Some?
    ensures Tidy(OtherStep(c, a).value)
  {
    if a.JoinUp? {
      UpTidy(c, a);
    } else if a.JoinInsert? {
      InsertTidy(c, a);
    } else {
      JoinFrame(c.pipe, a);
    }
  }

  lemma UpTidy(c: Capture, a: Action)
    requires Tidy(c) && a.JoinUp? && OtherStep(c, a).Some?
    ensures Tidy(OtherStep(c, a).value)
  {
    JoinsKept(c.pipe, a);
    assert IsJoining(c.pipe.mem.joins, a.j, c.pipe.mem.joins[a.j].rec.meeting);
  }

  lemma JoinsKept(s: State, a: Action)
    requires (a.JoinUp? || a.JoinInsert?) && JoinStep(s, a).Some?
    ensures forall j, m ::
      IsJoining(JoinStep(s, a).value.mem.joins, j, m) ==> IsJoining(s.mem.joins, j, m) || m in StartedBy(a)
  {}

  lemma InsertTidy(c: Capture, a: Action)
    requires Tidy(c) && a.JoinInsert? && OtherStep(c, a).Some?
    ensures Tidy(OtherStep(c, a).value)
  {
    StartsNew(c, a);
    JoinsKept(c.pipe, a);
  }

  lemma JoinFrame(s: State, a: Action)
    requires OfJoin(a) && !a.JoinUp? && !a.JoinInsert? && JoinStep(s, a).Some?
    ensures TidyFrame(s, JoinStep(s, a).value)
  {}

  lemma ElseFrame(s: State, a: Action)
    requires Reachable(s) && Next(s, a).Some? && !OfJoin(a) && !a.LeavePop?
    ensures TidyFrame(s, Next(s, a).value)
  {
    MeetingsStay(s, a);
    if a.LeaveDisconnect? || a.LeaveMark? || a.Crash? {
    } else {
      CallsStay(s, a);
    }
  }

  lemma MeetingsStay(s: State, a: Action)
    requires Reachable(s) && Next(s, a).Some?
    ensures s.db.meetings.Keys <= Next(s, a).value.db.meetings.Keys
  {
    ReachableInv(s);
    StatusMachine.MeetingsChange(s, a);
  }

  lemma CallsStay(s: State, a: Action)
    requires Reachable(s) && Next(s, a).Some? && !OfJoin(a) && !OfLeave(a) && !a.Crash?
    ensures var mem, after := s.mem, Next(s, a).value.mem;
      after.joins == mem.joins && after.active == mem.active && after.leaves.Keys <= mem.leaves.Keys
  {
    ReachableInv(s);
    StepFootprint(s, a);
  }

  // ---- runs ----

  lemma StepKeepsAll(c: Capture, e: Event, silence: int)
    requires Ok(c) && StepOf(c, e, silence).Some?
    ensures Ok(StepOf(c, e, silence).value)
  {
    match e
    case Sound(_, _, _, _) => SoundKeeps(c, e, silence);
    case Flush(_, _, _, _) => FlushKeeps(c, e, silence);
    case DrainAll(_, _) => DrainKeeps(c, e, silence);
    case StoreNext(_, _) => StoreNextKeeps(c, e, silence);
    case Other(a) => OtherKeeps(c, a);
  }

  lemma {:induction false} RunOk(es: seq<Event>, silence: int)
    requires After(es, silence).Some?
    ensures Ok(After(es, silence).value)
  {
    if es == [] {
      assert Pipeline.Run(INIT, []) == Some(INIT);
    } else {
      RunOk(es[..|es| - 1], silence);
      StepKeepsAll(After(es[..|es| - 1], silence).value, es[|es| - 1], silence);
    }
  }

  lemma ReachesOk(es: seq<Event>, silence: int, c: Capture)
    requires Reaches(es, silence, c)
    ensures Ok(c)
  {
    assert After(es, silence) == Some(c);
    RunOk(es, silence);
  }

  /** Whatever the machine does with its buffers is a run of the step machine, so all its theorems hold. */
  lemma PipeReachable(es: seq<Event>, silence: int, c: Capture)
    requires Reaches(es, silence, c)
    ensures Reachable(c.pipe)
  {
    ReachesOk(es, silence, c);
  }
}
