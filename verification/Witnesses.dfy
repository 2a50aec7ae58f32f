/** Runs that show that the conditions of the completion theorems can fail. */
module Witnesses {
  import opened Wrappers
  import opened Bytes
  import opened Pipeline
  import opened PipelineFrames
  import opened PipelineInvariant
  import opened CompletionSafety
  import opened Repeats

  /** Just long enough to be kept. */
  const SOUND: seq<Byte> := seq(76_800, i => 0)

  const ROOM := Channel(0, 0)
  const TALK := Recording(1, ROOM, "", 0)
  const PIECE := Seg(1, "")
  const WORK := Job(TALK, 5, SOUND, 0, 400, false)

  /** One recording with one segment cut, its store task in flight. */
  const CUTTING := INIT.(
    db := Db(map[1 := MeetingRow(ROOM, Active)], []),
    mem := EMPTY_MEM.(active := map[0 := TALK], voice := {0}, jobs := map[PIECE := WORK], drainers := map[7 := Top],
                     handle := Some(7)),
    hist := INIT.hist.(cuts := map[PIECE := WORK]))

  /** The recording has started. */
  const RECORDED := CUTTING.(mem := CUTTING.mem.(jobs := map[]), hist := INIT.hist)

  /** The row of the meeting is there, the voice client not yet. */
  const JOINING := INIT.(
    db := Db(map[1 := MeetingRow(ROOM, Active)], []),
    mem := EMPTY_MEM.(joins := map[0 := Inserted(TALK)], voice := {0}))

  const CONNECTED := INIT.(mem := EMPTY_MEM.(joins := map[0 := Connected(ROOM)], voice := {0}))
  const RETIRING := INIT.(mem := EMPTY_MEM.(joins := map[0 := Retired(ROOM)], voice := {0}))

  lemma ConnectedReachable()
    ensures Reachable(CONNECTED)
  {
    assert Run(INIT, []) == Some(INIT);
    ReachableStep(INIT, JoinConnect(0, ROOM));
    assert Next(INIT, JoinConnect(0, ROOM)).value == CONNECTED;
  }

  lemma RetiringReachable()
    ensures Reachable(RETIRING)
  {
    ConnectedReachable();
    ReachableStep(CONNECTED, JoinRetire(0));
    assert Next(CONNECTED, JoinRetire(0)).value == RETIRING;
  }

  lemma JoiningReachable()
    ensures Reachable(JOINING)
  {
    RetiringReachable();
    ReachableStep(RETIRING, JoinInsert(0, 1, "", 0));
    assert Next(RETIRING, JoinInsert(0, 1, "", 0)).value == JOINING;
  }

  lemma RecordedReachable()
    ensures Reachable(RECORDED)
  {
    JoiningReachable();
    ReachableStep(JOINING, JoinUp(0, 7));
    assert Next(JOINING, JoinUp(0, 7)).value == RECORDED;
  }

  lemma CuttingReachable()
    ensures Reachable(CUTTING)
  {
    RecordedReachable();
    ReachableStep(RECORDED, Cut(0, "", 5, SOUND, 0, 400));
    assert Next(RECORDED, Cut(0, "", 5, SOUND, 0, 400)) == Some(CUTTING);
  }

  /** From any state whose recording of guild 0 can be left, up to the mark. */
  lemma UpToMark(s: State) returns (t: State)
    requires Reachable(s) && s.mem.cpu.Free? && 0 in s.mem.active && s.mem.active[0] == TALK && s.mem.leaves == map[]
    requires LeaveJobs(s.mem.jobs, 1) == {} && FreshDrainer(s.mem, 8)
    ensures Reachable(t) && Next(t, LeaveMark(1, 8)).Some?
    ensures t.disk == s.disk && t.db == s.db && t.hist == s.hist
    ensures t.mem == s.mem.(active := t.mem.active, voice := t.mem.voice, leaves := map[1 := Leaving(TALK, false)])
  {
    var mid := Popping(s);
    t := Disconnecting(mid);
  }

  lemma Disconnecting(s: State) returns (t: State)
    requires Reachable(s) && s.mem.cpu.Free? && s.mem.leaves == map[1 := Leaving(TALK, true)]
    ensures Reachable(t) && t.disk == s.disk && t.db == s.db && t.hist == s.hist
    ensures t.mem == s.mem.(voice := t.mem.voice, leaves := map[1 := Leaving(TALK, false)])
  {
    ReachableStep(s, LeaveDisconnect(1));
    t := Next(s, LeaveDisconnect(1)).value;
  }

  lemma Popping(s: State) returns (t: State)
    requires Reachable(s) && s.mem.cpu.Free? && 0 in s.mem.active && s.mem.active[0] == TALK && s.mem.leaves == map[]
    ensures Reachable(t) && t.disk == s.disk && t.db == s.db && t.hist == s.hist
    ensures t.mem == s.mem.(active := t.mem.active, leaves := map[1 := Leaving(TALK, true)])
  {
    ReachableStep(s, LeavePop(0));
    t := Next(s, LeavePop(0)).value;
  }

  /** The first condition of `MarkExact` can fail: a `/leave` marks a meeting while a store task of it is in flight, and
      the meeting is then not safe. */
  lemma MarkCanFail() returns (s: State)
    ensures Reachable(s) && Next(s, LeaveMark(1, 8)).Some? && PIECE in LongJobs(s.mem.jobs, 1)
    ensures !SafeForever(Next(s, LeaveMark(1, 8)).value, 1)
  {
    CuttingReachable();
    s := UpToMark(CUTTING);
    MarkExact(s, 1, 8);
  }

  /** The segment is on disk and the guild was left. */
  lemma StoredState() returns (s: State)
    ensures Reachable(s) && s.mem.cpu.Free? && s.mem.jobs == map[] && UnreadOf(s, 1) == {}
    ensures s.mem.leaves == map[1 := Leaving(TALK, false)] && FreshDrainer(s.mem, 8)
    ensures s.mem.handle == Some(7) && s.mem.drainers == map[7 := Top]
    ensures IsHead(s, PIECE) && Loses(s, PIECE)
  {
    CuttingReachable();
    var spill, s1 := LateSpill(CUTTING, PIECE);
    ReachableRun(CUTTING, spill, s1);
    s := UpToMark(s1);
  }

  lemma MarkedState() returns (s: State, t: State)
    ensures Reachable(s) && Next(s, LeaveMark(1, 8)) == Some(t)
    ensures LongJobs(s.mem.jobs, 1) == {} && UnreadOf(s, 1) == {}
    ensures AtTop(t, 7) && IsHead(t, PIECE) && Loses(t, PIECE) && 1 in t.disk.marks
  {
    s := StoredState();
    t := Next(s, LeaveMark(1, 8)).value;
    ReachableStep(s, LeaveMark(1, 8));
  }

  /** A read can fail after a mark that meets both conditions: the meeting is completed although a segment of it has
      neither a row nor an answer. */
  lemma ReadCanFail() returns (s: State, t: State, acts: seq<Action>, u: State)
    ensures Reachable(s) && Next(s, LeaveMark(1, 8)) == Some(t)
    ensures LongJobs(s.mem.jobs, 1) == {} && UnreadOf(s, 1) == {}
    ensures Run(t, acts) == Some(u) && ReadLost(t, acts, 1) && IsCompleted(u, 1) && !AllSettled(u, 1)
  {
    s, t := MarkedState();
    acts, u := FailedReadBreaks(t, 7, PIECE);
  }

  /** The head gets its row, and the drain task is about to unlink the files. */
  lemma RowOnce(s: State) returns (acts: seq<Action>, t: State)
    requires AtTop(s, 7) && IsHead(s, PIECE) && Readable(s.disk, PIECE)
    ensures Run(s, acts) == Some(t) && Reachable(t) && t.mem.cpu.Free? && t.disk == s.disk
    ensures TouchingAt(t.mem, 7, PIECE) && t.hist.mtime == s.hist.mtime
    ensures RowCount(t.db.rows, PIECE) == RowCount(s.db.rows, PIECE) + 1
  {
    var scan, answer, insert := Scan(7, PIECE, true), Answer(7, Some("x")), InsertRow(7);
    ReachableStep(s, scan);
    var s1 := Next(s, scan).value;
    ReachableStep(s1, answer);
    var s2 := Next(s1, answer).value;
    ReachableStep(s2, insert);
    t := Next(s2, insert).value;
    RunCons(s2, insert, []);
    RunCons(s1, answer, [insert]);
    RunCons(s, scan, [answer] + [insert]);
    acts := [scan] + ([answer] + [insert]);
    assert t.db.rows[..|s.db.rows|] == s.db.rows;
  }

  /** A segment can have two rows: the drain task fails between the INSERT and the unlinking, and starts again. */
  lemma RowTwice() returns (s: State, acts: seq<Action>, t: State)
    ensures Reachable(s) && Run(s, acts) == Some(t) && RowCount(t.db.rows, PIECE) >= 2
  {
    s := StoredState();
    var acts1, s1 := RowOnce(s);
    var fail := DrainError(7);
    assert Touched(s1, PIECE);
    ExposedExactly(s1, fail, PIECE);
    ReachableStep(s1, fail);
    var s2 := Next(s1, fail).value;
    var acts2;
    acts2, t := InsertAgain(s2, 7, PIECE);
    RunCons(s1, fail, acts2);
    RunAppend(s, acts1, [fail] + acts2);
    acts := acts1 + ([fail] + acts2);
  }
}
