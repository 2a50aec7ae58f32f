/**
 The capture-to-database pipeline of bot.py as a step machine.

 Every file operation, database statement and await is a step of its own, and `Crash` may come between
 any two. Code that runs without an await keeps the event loop: while `cpu` is not `Free` only the
 continuation of that code, or a crash, is enabled. A crash erases everything in memory and keeps the
 directory and the tables.
 */
module Pipeline {
  import opened Bytes
  import opened Wrappers
  import Names

  type Guild = nat
  type User = nat

  /** A voice channel belongs to one guild. */
  datatype Channel = Channel(guild: Guild, id: nat)

  const MIN_MS: nat := 400
  const BYTES_PER_SEC: nat := 48_000 * 2 * 2

  /** A base name in the pending directory, `f"{meeting}_{uuid}"`. */
  datatype Seg = Seg(meeting: nat, uuid: string)

  /** What `spill_segment` writes to the sidecar. */
  datatype Meta = Meta(meeting: nat, session: string, speaker: string, t0: int, t1: int)

  /** A `.json` file: created but not fully written, or whole. */
  datatype Sidecar = Torn | Whole(meta: Meta)

  /** A `.wav` file: created but not fully written, or the mono downmix of some PCM. */
  datatype Audio = Partial | Downmix(pcm: seq<Byte>)

  /** A row of `transcriptions`. */
  datatype Row = Row(seg: Seg, meta: Meta, text: string)

  datatype Status = Active | Failed | Completed
  datatype MeetingRow = MeetingRow(channel: Channel, status: Status)

  /** The part of `Meeting` that matters here. */
  datatype Recording = Recording(meeting: nat, channel: Channel, session: string, base: int)

  /** A call of `store` not yet finished: a task made by `flusher`, or one that `leave` awaits. */
  datatype Job = Job(rec: Recording, user: User, pcm: seq<Byte>, t0: int, t1: int, inLeave: bool)

  /** How far a `/join` is: voice connected, stale rows retired, row inserted, or voice given up after a failure. */
  datatype Join =
    | Connected(channel: Channel)
    | Retired(channel: Channel)
    | Inserted(rec: Recording)
    | Closing(rec: Recording)

  predicate Opened(join: Join) { join.Inserted? || join.Closing? }

  /** A `/leave`, and whether it has yet to disconnect from voice. */
  datatype Leaving = Leaving(rec: Recording, connected: bool)

  /** Where a drain task is suspended. */
  datatype Pc =
    | Top
    | Transcribing(seg: Seg, meta: Meta)
    | Inserting(seg: Seg, meta: Meta, text: string)
    | Touching(seg: Seg, meta: Meta)
    | Finalizing(todo: seq<nat>, prefixes: set<string>)
    | Unmarking(meeting: nat, todo: seq<nat>, prefixes: set<string>)

  /** The segment a drain task is busy with, if any. */
  function Held(pc: Pc): Option<(Seg, Meta)> {
    match pc
    case Transcribing(seg, meta) => Some((seg, meta))
    case Inserting(seg, meta, _) => Some((seg, meta))
    case Touching(seg, meta) => Some((seg, meta))
    case _ => None
  }

  /** Which await-free code is running. */
  datatype Cpu =
    | Free
    | Spilling(seg: Seg, meta: Meta, stage: nat)
    | Deleting(d: nat, seg: Seg, thenFinalize: bool)

  /** The pending directory. */
  datatype Disk = Disk(json: map<Seg, Sidecar>, wav: map<Seg, Audio>, marks: set<nat>)

  /** The tables. */
  datatype Db = Db(meetings: map<nat, MeetingRow>, rows: seq<Row>)

  /** What a crash erases. */
  datatype Mem = Mem(
    active: map<Guild, Recording>,
    joins: map<nat, Join>,
    leaves: map<nat, Leaving>,
    voice: set<Guild>,       // guilds with a registered voice client
    jobs: map<Seg, Job>,
    drainers: map<nat, Pc>,
    handle: Option<nat>,
    cpu: Cpu)

  /** History: no step reads it to decide anything. */
  datatype Hist = Hist(
    cuts: map<Seg, Job>,     // every segment ever cut from a buffer
    order: seq<Seg>,         // segments in the order their sidecars were created
    mtime: map<Seg, int>,    // st_mtime of every sidecar ever created
    spilled: set<Seg>,       // both files fully written
    silent: set<Seg>,        // answered by the worker with empty text
    inserted: set<Seg>,      // segments with a row
    short: set<Seg>,         // dropped as shorter than MIN_MS
    lost: set<Seg>,          // in flight at a crash, at a failed store, or at an abandoned leave
    unread: set<Seg>,        // spilled, not settled, and deleted because reading the files failed
    named: set<(nat, User, string)>,  // answers of name_for: meeting, user, name
    left: set<nat>,          // meetings marked by /leave
    dirty: set<nat>,         // ... while a store task of theirs could still spill
    hooks: seq<nat>)         // meetings for which a webhook task was created

  datatype State = State(disk: Disk, db: Db, mem: Mem, hist: Hist)

  const EMPTY_MEM := Mem(map[], map[], map[], {}, map[], map[], None, Free)

  const INIT := State(Disk(map[], map[], {}), Db(map[], []), EMPTY_MEM,
                      Hist(map[], [], map[], {}, {}, {}, {}, {}, {}, {}, {}, {}, []))

  datatype Action =
    | Crash
    | SpillNext
    | SpillFail
    | UnlinkJson
    | UnlinkFail
    // the drainer
    | EnsureDrain(d: nat)
    | DrainerDies(d: nat)
    | Scan(d: nat, head: Seg, readOk: bool)
    | ScanEmpty(d: nat)
    | Answer(d: nat, reply: Option<string>)
    | InsertRow(d: nat)
    | TouchMeeting(d: nat)
    | FinalizeNext(d: nat)
    | Unmark(d: nat, hook: bool)
    | DrainError(d: nat)
    // flusher, store and leave
    | Cut(guild: Guild, uuid: string, user: User, pcm: seq<Byte>, t0: int, t1: int)
    | LeaveCut(meeting: nat, uuid: string, user: User, pcm: seq<Byte>, t0: int, t1: int)
    | DropShort(seg: Seg)
    | StoreFail(seg: Seg)
    | SpillOpen(seg: Seg, speaker: string, stamp: int)
    | LeavePop(guild: Guild)
    | LeaveDisconnect(meeting: nat)
    | LeaveMark(meeting: nat, d: nat)
    | LeaveAbort(meeting: nat)
    // join
    | JoinConnect(j: nat, channel: Channel)
    | JoinRefuse(j: nat)
    | JoinRetire(j: nat)
    | JoinInsert(j: nat, meeting: nat, session: string, base: int)
    | JoinUp(j: nat, d: nat)
    | JoinClose(j: nat)
    | JoinDown(j: nat)
    | JoinAbort(j: nat)

  predicate TooShort(pcm: seq<Byte>) { |pcm| * 1000 < MIN_MS * BYTES_PER_SEC }

  function MetaOf(seg: Seg, job: Job, speaker: string): Meta {
    Meta(seg.meeting, job.rec.session, speaker, job.t0 - job.rec.base, job.t1 - job.rec.base)
  }

  /** `scan_pending()[0]`: some sidecar with the least modification time. */
  predicate IsHead(s: State, head: Seg) {
    && head in s.disk.json
    && head in s.hist.mtime
    && forall x | x in s.disk.json && x in s.hist.mtime :: s.hist.mtime[head] <= s.hist.mtime[x]
  }

  /** `load_segment` can succeed: both files are there and the sidecar parses. Reading them may still fail. */
  predicate Readable(disk: Disk, seg: Seg) {
    seg in disk.json && disk.json[seg].Whole? && seg in disk.wav
  }

  /** `{p.name.split("_", 1)[0] for p in scan_pending()}` */
  function PendingPrefixes(json: map<Seg, Sidecar>): set<string> {
    set seg | seg in json :: Names.BeforeUnderscore(Names.SidecarName(seg.meeting, seg.uuid))
  }

  /** The start of `_finalize_completed`: both listings are taken here, before any await. */
  function FinalizeStart(disk: Disk): Pc {
    var todo := Names.FinalizingMeetings(Names.MarkerNames(disk.marks));
    if todo == [] then Top else Finalizing(todo, PendingPrefixes(disk.json))
  }

  function WithPc(mem: Mem, d: nat, pc: Pc): Mem { mem.(drainers := mem.drainers[d := pc]) }

  /** `ensure_drain_loop`, with the id a new task would get. */
  function WithDrainer(mem: Mem, d: nat): Mem {
    if mem.handle.Some? && mem.handle.value in mem.drainers then mem
    else mem.(drainers := mem.drainers[d := Top], handle := Some(d))
  }

  /** A task id never used for a drain task that is alive or remembered. */
  predicate FreshDrainer(mem: Mem, d: nat) { d !in mem.drainers && mem.handle != Some(d) }

  function CrashState(s: State): State {
    s.(mem := EMPTY_MEM, hist := s.hist.(lost := s.hist.lost + s.mem.jobs.Keys))
  }

  /** The rest of `spill_segment` once the sidecar exists: write it, create the `.wav`, write that. */
  function SpillStep(s: State): Option<State> {
    match s.mem.cpu
    case Spilling(seg, meta, stage) =>
      if seg !in s.mem.jobs then None
      else if stage == 0 then
        Some(s.(disk := s.disk.(json := s.disk.json[seg := Whole(meta)]),
                mem := s.mem.(cpu := Spilling(seg, meta, 1))))
      else if stage == 1 then
        Some(s.(disk := s.disk.(wav := s.disk.wav[seg := Partial]),
                mem := s.mem.(cpu := Spilling(seg, meta, 2))))
      else
        Some(s.(disk := s.disk.(wav := s.disk.wav[seg := Downmix(s.mem.jobs[seg].pcm)]),
                mem := s.mem.(cpu := Free, jobs := s.mem.jobs - {seg}),
                hist := s.hist.(spilled := s.hist.spilled + {seg})))
    case _ => None
  }

  /** A `/leave` ends in an exception: what it was storing is gone, and no marker is touched. */
  function AbandonLeave(s: State, m: nat): State {
    var gone := LeaveJobs(s.mem.jobs, m);
    s.(mem := s.mem.(leaves := s.mem.leaves - {m}, jobs := s.mem.jobs - gone),
       hist := s.hist.(lost := s.hist.lost + gone))
  }

  /** A `store` call ends in an exception; a `/leave` that awaits it ends with it. */
  function FailStore(s: State, seg: Seg): State
    requires seg in s.mem.jobs
  {
    if s.mem.jobs[seg].inLeave then AbandonLeave(s, seg.meeting)
    else s.(mem := s.mem.(jobs := s.mem.jobs - {seg}), hist := s.hist.(lost := s.hist.lost + {seg}))
  }

  /** A write fails. */
  function SpillFailStep(s: State): Option<State> {
    match s.mem.cpu
    case Spilling(seg, _, _) =>
      if seg !in s.mem.jobs then None
      else
        var t := FailStore(s, seg);
        Some(t.(mem := t.mem.(cpu := Free)))
    case _ => None
  }

  /** The rest of a deletion once the `.wav` is gone. */
  function UnlinkStep(s: State): Option<State> {
    match s.mem.cpu
    case Deleting(d, seg, thenFinalize) =>
      var disk := s.disk.(json := s.disk.json - {seg});
      var pc := if thenFinalize then FinalizeStart(disk) else Top;
      Some(s.(disk := disk, mem := WithPc(s.mem, d, pc).(cpu := Free)))
    case _ => None
  }

  /** Unlinking the `.json` fails: the exception reaches `drain_loop`. */
  function UnlinkFailStep(s: State): Option<State> {
    match s.mem.cpu
    case Deleting(d, _, _) => Some(s.(mem := WithPc(s.mem, d, Top).(cpu := Free)))
    case _ => None
  }

  /** Unlink the `.wav`; the unlinking of the `.json` follows without an await. */
  function StartDeleting(s: State, d: nat, seg: Seg, thenFinalize: bool): State {
    s.(disk := s.disk.(wav := s.disk.wav - {seg}),
       mem := WithPc(s.mem, d, Top).(cpu := Deleting(d, seg, thenFinalize)))
  }

  /** Deleting a file pair loses speech for good. */
  predicate Loses(s: State, head: Seg) {
    Readable(s.disk, head) && head in s.hist.spilled && !Settled(s, head)
  }

  /** The head is read and posted, or deleted if it cannot be read, whatever the reason. */
  function ScanStep(s: State, d: nat, head: Seg, readOk: bool): Option<State> {
    if !(d in s.mem.drainers && s.mem.drainers[d].Top? && IsHead(s, head)) then None
    else if Readable(s.disk, head) && readOk then
      Some(s.(mem := WithPc(s.mem, d, Transcribing(head, s.disk.json[head].meta))))
    else
      Some(StartDeleting(s, d, head, false).(hist := WithUnread(s, head)))
  }

  function WithUnread(s: State, head: Seg): Hist {
    s.hist.(unread := s.hist.unread + if Loses(s, head) then {head} else {})
  }

  function AnswerStep(s: State, d: nat, reply: Option<string>): Option<State> {
    if !(d in s.mem.drainers && s.mem.drainers[d].Transcribing?) then None
    else
      var Transcribing(seg, meta) := s.mem.drainers[d];
      if reply.None? then Some(s.(mem := WithPc(s.mem, d, Top)))
      else if reply.value == "" then
        Some(StartDeleting(s, d, seg, true).(hist := s.hist.(silent := s.hist.silent + {seg})))
      else Some(s.(mem := WithPc(s.mem, d, Inserting(seg, meta, reply.value))))
  }

  function InsertRowStep(s: State, d: nat): Option<State> {
    if !(d in s.mem.drainers && s.mem.drainers[d].Inserting?) then None
    else
      var Inserting(seg, meta, text) := s.mem.drainers[d];
      Some(s.(db := s.db.(rows := s.db.rows + [Row(seg, meta, text)]),
              mem := WithPc(s.mem, d, Touching(seg, meta)),
              hist := s.hist.(inserted := s.hist.inserted + {seg})))
  }

  /** One turn of the loop of `_finalize_completed`, up to the await of its UPDATE. */
  function FinalizeStep(s: State, d: nat): Option<State> {
    if !(d in s.mem.drainers && s.mem.drainers[d].Finalizing?) then None
    else
      var Finalizing(todo, prefixes) := s.mem.drainers[d];
      if todo == [] then Some(s.(mem := WithPc(s.mem, d, Top)))
      else if Names.Decimal(todo[0]) in prefixes then
        Some(s.(mem := WithPc(s.mem, d, Finalizing(todo[1..], prefixes))))
      else
        Some(s.(db := s.db.(meetings := Complete(s.db.meetings, todo[0])),
                mem := WithPc(s.mem, d, Unmarking(todo[0], todo[1..], prefixes))))
  }

  /** `UPDATE meetings SET status='completed' ... WHERE id=$1` */
  function Complete(meetings: map<nat, MeetingRow>, m: nat): map<nat, MeetingRow> {
    if m in meetings then meetings[m := meetings[m].(status := Completed)] else meetings
  }

  /** The rest of that turn: unlink the marker and, unless disabled or failing, create the webhook task. */
  function UnmarkStep(s: State, d: nat, hook: bool): Option<State> {
    if !(d in s.mem.drainers && s.mem.drainers[d].Unmarking?) then None
    else
      var Unmarking(m, todo, prefixes) := s.mem.drainers[d];
      Some(s.(disk := s.disk.(marks := s.disk.marks - {m}),
              mem := WithPc(s.mem, d, Finalizing(todo, prefixes)),
              hist := s.hist.(hooks := if hook && m in s.db.meetings then s.hist.hooks + [m] else s.hist.hooks)))
  }

  function DrainStep(s: State, a: Action): Option<State> {
    match a
    case EnsureDrain(d) => if FreshDrainer(s.mem, d) then Some(s.(mem := WithDrainer(s.mem, d))) else None
    case DrainerDies(d) =>
      if d in s.mem.drainers then Some(s.(mem := s.mem.(drainers := s.mem.drainers - {d}))) else None
    case DrainError(d) => if d in s.mem.drainers then Some(s.(mem := WithPc(s.mem, d, Top))) else None
    case Scan(d, head, readOk) => ScanStep(s, d, head, readOk)
    case ScanEmpty(d) =>
      if d in s.mem.drainers && s.mem.drainers[d].Top? && s.disk.json == map[]
      then Some(s.(mem := WithPc(s.mem, d, FinalizeStart(s.disk))))
      else None
    case Answer(d, reply) => AnswerStep(s, d, reply)
    case InsertRow(d) => InsertRowStep(s, d)
    case TouchMeeting(d) =>
      if d in s.mem.drainers && s.mem.drainers[d].Touching?
      then Some(StartDeleting(s, d, s.mem.drainers[d].seg, true))
      else None
    case FinalizeNext(d) => FinalizeStep(s, d)
    case Unmark(d, hook) => UnmarkStep(s, d, hook)
    case _ => None
  }

  function AddJob(s: State, seg: Seg, job: Job): Option<State> {
    if seg in s.hist.cuts then None
    else Some(s.(mem := s.mem.(jobs := s.mem.jobs[seg := job]), hist := s.hist.(cuts := s.hist.cuts[seg := job])))
  }

  /** The segments of a meeting whose `store` is awaited by `leave`. */
  function LeaveJobs(jobs: map<Seg, Job>, m: nat): set<Seg> {
    set seg | seg in jobs && jobs[seg].inLeave && seg.meeting == m
  }

  /** The segments of a meeting that a `store` task in flight may still spill. */
  function LongJobs(jobs: map<Seg, Job>, m: nat): set<Seg> {
    set seg | seg in jobs && seg.meeting == m && !TooShort(jobs[seg].pcm)
  }

  /** `store` past its length test: the speaker is resolved and the sidecar is created. */
  function SpillOpenStep(s: State, seg: Seg, speaker: string, stamp: int): Option<State> {
    if seg in s.mem.jobs && !TooShort(s.mem.jobs[seg].pcm) then
      Some(s.(disk := s.disk.(json := s.disk.json[seg := Torn]),
              mem := s.mem.(cpu := Spilling(seg, MetaOf(seg, s.mem.jobs[seg], speaker), 0)),
              hist := s.hist.(order := s.hist.order + [seg], mtime := s.hist.mtime[seg := stamp],
                              named := s.hist.named + {(seg.meeting, s.mem.jobs[seg].user, speaker)})))
    else None
  }

  /** The end of `leave`: every awaited `store` is done, the marker is touched, the drainer is alive. */
  function LeaveMarkStep(s: State, m: nat, d: nat): Option<State> {
    if m in s.mem.leaves && !s.mem.leaves[m].connected && LeaveJobs(s.mem.jobs, m) == {} && FreshDrainer(s.mem, d) then
      Some(s.(disk := s.disk.(marks := s.disk.marks + {m}),
              mem := WithDrainer(s.mem, d).(leaves := s.mem.leaves - {m}),
              hist := s.hist.(left := s.hist.left + {m},
                              dirty := if LongJobs(s.mem.jobs, m) == {} then s.hist.dirty else s.hist.dirty + {m})))
    else None
  }

  function StoreStep(s: State, a: Action): Option<State> {
    match a
    case Cut(g, uuid, user, pcm, t0, t1) =>
      if g in s.mem.active
      then AddJob(s, Seg(s.mem.active[g].meeting, uuid), Job(s.mem.active[g], user, pcm, t0, t1, false))
      else None
    case LeaveCut(m, uuid, user, pcm, t0, t1) =>
      if m in s.mem.leaves && !s.mem.leaves[m].connected
      then AddJob(s, Seg(m, uuid), Job(s.mem.leaves[m].rec, user, pcm, t0, t1, true))
      else None
    case DropShort(seg) =>
      if seg in s.mem.jobs && TooShort(s.mem.jobs[seg].pcm)
      then Some(s.(mem := s.mem.(jobs := s.mem.jobs - {seg}), hist := s.hist.(short := s.hist.short + {seg})))
      else None
    case StoreFail(seg) =>
      if seg in s.mem.jobs && !TooShort(s.mem.jobs[seg].pcm) then Some(FailStore(s, seg)) else None
    case SpillOpen(seg, speaker, stamp) => SpillOpenStep(s, seg, speaker, stamp)
    case LeavePop(g) =>
      if g in s.mem.active then
        var rec := s.mem.active[g];
        Some(s.(mem := s.mem.(active := s.mem.active - {g}, leaves := s.mem.leaves[rec.meeting := Leaving(rec, true)])))
      else None
    case LeaveDisconnect(m) =>
      if m in s.mem.leaves && s.mem.leaves[m].connected then
        var rec := s.mem.leaves[m].rec;
        Some(s.(mem := s.mem.(voice := s.mem.voice - {rec.channel.guild},
                              leaves := s.mem.leaves[m := Leaving(rec, false)])))
      else None
    case LeaveMark(m, d) => LeaveMarkStep(s, m, d)
    case LeaveAbort(m) => if m in s.mem.leaves then Some(AbandonLeave(s, m)) else None
    case _ => None
  }

  /** `UPDATE meetings SET status='failed' ... WHERE channel AND status NOT IN ('completed','failed')` */
  function Retire(meetings: map<nat, MeetingRow>, channel: Channel): map<nat, MeetingRow> {
    map m | m in meetings ::
      if meetings[m].channel == channel && meetings[m].status.Active? then meetings[m].(status := Failed)
      else meetings[m]
  }

  function WithJoin(mem: Mem, j: nat, join: Join): Mem { mem.(joins := mem.joins[j := join]) }

  /** `channel.connect` refuses a guild that already has a voice client, and only `disconnect` gives it up again. */
  function JoinStep(s: State, a: Action): Option<State> {
    match a
    case JoinConnect(j, ch) =>
      if j in s.mem.joins || ch.guild in s.mem.voice then None
      else Some(s.(mem := WithJoin(s.mem, j, Connected(ch)).(voice := s.mem.voice + {ch.guild})))
    case JoinRefuse(j) =>
      if j in s.mem.joins && s.mem.joins[j].Connected? then
        var g := s.mem.joins[j].channel.guild;
        Some(s.(mem := s.mem.(voice := s.mem.voice - {g}, joins := s.mem.joins - {j})))
      else None
    case JoinRetire(j) =>
      if j in s.mem.joins && s.mem.joins[j].Connected? then
        var ch := s.mem.joins[j].channel;
        Some(s.(db := s.db.(meetings := Retire(s.db.meetings, ch)), mem := WithJoin(s.mem, j, Retired(ch))))
      else None
    case JoinInsert(j, m, session, base) =>
      if j in s.mem.joins && s.mem.joins[j].Retired? && m !in s.db.meetings then
        var ch := s.mem.joins[j].channel;
        Some(s.(db := s.db.(meetings := s.db.meetings[m := MeetingRow(ch, Active)]),
                mem := WithJoin(s.mem, j, Inserted(Recording(m, ch, session, base)))))
      else None
    case JoinUp(j, d) =>
      if j in s.mem.joins && s.mem.joins[j].Inserted? && FreshDrainer(s.mem, d) then
        var rec := s.mem.joins[j].rec;
        Some(s.(mem := WithDrainer(s.mem, d).(active := s.mem.active[rec.channel.guild := rec],
                                              joins := s.mem.joins - {j})))
      else None
    case JoinClose(j) =>
      if j in s.mem.joins && s.mem.joins[j].Inserted? then
        var rec := s.mem.joins[j].rec;
        Some(s.(mem := WithJoin(s.mem, j, Closing(rec)).(voice := s.mem.voice - {rec.channel.guild})))
      else None
    case JoinDown(j) =>
      if j in s.mem.joins && s.mem.joins[j].Closing? && s.mem.joins[j].rec.meeting in s.db.meetings then
        var m := s.mem.joins[j].rec.meeting;
        Some(s.(db := s.db.(meetings := s.db.meetings[m := s.db.meetings[m].(status := Failed)]),
                mem := s.mem.(joins := s.mem.joins - {j})))
      else None
    case JoinAbort(j) =>
      if j in s.mem.joins then Some(s.(mem := s.mem.(joins := s.mem.joins - {j}))) else None
    case _ => None
  }

  /** One step of the bridge; `None` when the action is not enabled. */
  function Next(s: State, a: Action): Option<State> {
    match a
    case Crash => Some(CrashState(s))
    case SpillNext => SpillStep(s)
    case SpillFail => SpillFailStep(s)
    case UnlinkJson => UnlinkStep(s)
    case UnlinkFail => UnlinkFailStep(s)
    case _ =>
      if !s.mem.cpu.Free? then None
      else if OfDrainer(a) then DrainStep(s, a)
      else if OfJoin(a) then JoinStep(s, a)
      else StoreStep(s, a)
  }

  predicate OfDrainer(a: Action) {
    a.EnsureDrain? || a.DrainerDies? || a.Scan? || a.ScanEmpty? || a.Answer? || a.InsertRow? || a.TouchMeeting?
    || a.FinalizeNext? || a.Unmark? || a.DrainError?
  }

  predicate OfJoin(a: Action) {
    a.JoinConnect? || a.JoinRefuse? || a.JoinRetire? || a.JoinInsert? || a.JoinUp? || a.JoinClose? || a.JoinDown?
    || a.JoinAbort?
  }

  /** The state after a run, `None` when some action of it was not enabled. */
  function Run(s: State, acts: seq<Action>): Option<State>
    decreases |acts|
  {
    if acts == [] then Some(s)
    else
      match Next(s, acts[0])
      case None => None
      case Some(t) => Run(t, acts[1..])
  }

  /** `a` leads from `s` to `t`. Here and in `Leads`, the quantifier keeps proofs that only pass the fact on from
      unfolding the step or the run. */
  ghost predicate Steps(s: State, a: Action, t: State) {
    forall b :: b == a ==> Next(s, b) == Some(t)
  }

  /** `acts` is a run that ends in `s`. */
  ghost predicate Leads(acts: seq<Action>, s: State) {
    forall start :: start == INIT ==> Run(start, acts) == Some(s)
  }

  ghost predicate Reachable(s: State) { exists acts: seq<Action> :: Run(INIT, acts) == Some(s) }

  lemma {:induction false} RunAppend(s: State, a: seq<Action>, b: seq<Action>)
    ensures Run(s, a).None? ==> Run(s, a + b).None?
    ensures Run(s, a).Some? ==> Run(s, a + b) == Run(Run(s, a).value, b)
    decreases |a|
  {
    if a == [] {
      assert a + b == b;
    } else {
      assert (a + b)[1..] == a[1..] + b;
      if Next(s, a[0]).Some? {
        RunAppend(Next(s, a[0]).value, a[1..], b);
      }
    }
  }

  /** A segment is settled once it has a row, or the worker answered that it holds no speech. */
  predicate Settled(s: State, seg: Seg) { seg in s.hist.inserted || seg in s.hist.silent }
}
