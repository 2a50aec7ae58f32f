/**
 What silence-gap segmentation promises over whole runs: no PCM is lost, duplicated or reordered; writes less than
 the threshold apart share a segment, and writes further apart than threshold plus polling period do not.
 */
module Segmentation {
  import opened Bytes
  import opened Wrappers
  import opened PcmBuffers

  /** A write from the receive path, a turn of `flusher`, or the `drain_all` of `leave`. */
  datatype Event =
    | Write(user: User, data: seq<Byte>, now: int)
    | Poll(now: int)
    | DrainAll(now: int)

  datatype Result = Result(buffer: Buffer, cuts: seq<Cut>)

  function Apply(r: Result, e: Event, silence: int): Result {
    match e
    case Write(u, data, now) => r.(buffer := Written(r.buffer, u, data, now))
    case Poll(now) =>
      Result(Popped(r.buffer, Some(silence), now), r.cuts + CutsFrom(r.buffer, r.buffer.keys, Some(silence), now))
    case DrainAll(now) =>
      Result(Popped(r.buffer, None, now), r.cuts + CutsFrom(r.buffer, r.buffer.keys, None, now))
  }

  function Run(es: seq<Event>, silence: int): Result {
    if es == [] then Result(EMPTY, []) else Apply(Run(es[..|es| - 1], silence), es[|es| - 1], silence)
  }

  lemma {:induction false} RunWellFormed(es: seq<Event>, silence: int)
    ensures WellFormed(Run(es, silence).buffer)
  {
    if es != [] {
      var r, e := Run(es[..|es| - 1], silence), es[|es| - 1];
      RunWellFormed(es[..|es| - 1], silence);
      match e
      case Write(u, data, now) => WrittenWellFormed(r.buffer, u, data, now);
      case Poll(now) => PoppedWellFormed(r.buffer, Some(silence), now);
      case DrainAll(now) => PoppedWellFormed(r.buffer, None, now);
    }
  }

  // ---- conservation ----

  function BytesWritten(es: seq<Event>, u: User): seq<Byte> {
    if es == [] then []
    else
      var e := es[|es| - 1];
      BytesWritten(es[..|es| - 1], u) + (if e.Write? && e.user == u then e.data else [])
  }

  function BytesCut(cuts: seq<Cut>, u: User): seq<Byte> {
    if cuts == [] then []
    else
      var c := cuts[|cuts| - 1];
      BytesCut(cuts[..|cuts| - 1], u) + (if c.user == u then c.pcm else [])
  }

  lemma {:induction false} BytesCutAppend(a: seq<Cut>, b: seq<Cut>, u: User)
    ensures BytesCut(a + b, u) == BytesCut(a, u) + BytesCut(b, u)
  {
    if b == [] {
      assert a + b == a;
    } else {
      var n := |b| - 1;
      assert (a + b)[..|a| + n] == a + b[..n];
      BytesCutAppend(a, b[..n], u);
    }
  }

  /** One pass takes a user's live PCM whole, once, or not at all. */
  lemma {:induction false} PassTakesOnce(b: Buffer, users: seq<User>, silence: Option<int>, now: int, u: User)
    requires forall i, j :: 0 <= i < j < |users| ==> users[i] != users[j]
    ensures BytesCut(CutsFrom(b, users, silence, now), u) ==
      if u in users && Takes(b, u, silence, now) then Live(b, u) else []
  {
    if users != [] {
      var n := |users| - 1;
      PassTakesOnce(b, users[..n], silence, now, u);
      assert u in users <==> u in users[..n] || u == users[n];
      PassTakesLast(b, users, silence, now, u);
    }
  }

  lemma PassTakesLast(b: Buffer, users: seq<User>, silence: Option<int>, now: int, u: User)
    requires users != []
    ensures var n := |users| - 1;
      BytesCut(CutsFrom(b, users, silence, now), u) == BytesCut(CutsFrom(b, users[..n], silence, now), u) +
        if u == users[n] && Takes(b, u, silence, now) then Live(b, u) else []
  {
    var n := |users| - 1;
    var rest := CutsFrom(b, users[..n], silence, now);
    if Takes(b, users[n], silence, now) {
      BytesCutAppend(rest, [CutOf(b, users[n], now)], u);
      assert BytesCut([CutOf(b, users[n], now)], u) == if users[n] == u then Live(b, u) else [];
    } else {
      assert CutsFrom(b, users, silence, now) == rest;
    }
  }

  /** Whatever a pass takes from a user is what it removes. */
  lemma PassTakesAll(b: Buffer, silence: Option<int>, now: int, u: User)
    requires u in b.buf ==> u in b.keys
    requires forall i, j :: 0 <= i < j < |b.keys| ==> b.keys[i] != b.keys[j]
    ensures BytesCut(CutsFrom(b, b.keys, silence, now), u) + Live(Popped(b, silence, now), u) == Live(b, u)
  {
    PassTakesOnce(b, b.keys, silence, now, u);
    assert Live(Popped(b, silence, now), u) == if Takes(b, u, silence, now) then [] else Live(b, u);
  }

  lemma PassConserves(cuts: seq<Cut>, pass: seq<Cut>, u: User, left: seq<Byte>, live: seq<Byte>)
    requires BytesCut(pass, u) + left == live
    ensures BytesCut(cuts + pass, u) + left == BytesCut(cuts, u) + live
  {
    BytesCutAppend(cuts, pass, u);
    assert BytesCut(cuts, u) + BytesCut(pass, u) + left == BytesCut(cuts, u) + (BytesCut(pass, u) + left);
  }

  lemma ConservationPass(r: Result, silence: Option<int>, now: int, u: User)
    requires WellFormed(r.buffer)
    ensures BytesCut(r.cuts + CutsFrom(r.buffer, r.buffer.keys, silence, now), u)
        + Live(Popped(r.buffer, silence, now), u) ==
      BytesCut(r.cuts, u) + Live(r.buffer, u)
  {
    var pass, left := CutsFrom(r.buffer, r.buffer.keys, silence, now), Live(Popped(r.buffer, silence, now), u);
    PassTakesAll(r.buffer, silence, now, u);
    PassConserves(r.cuts, pass, u, left, Live(r.buffer, u));
  }

  lemma ConservationStep(r: Result, e: Event, silence: int, u: User)
    requires WellFormed(r.buffer)
    ensures var t := Apply(r, e, silence);
      BytesCut(t.cuts, u) + Live(t.buffer, u) ==
      (BytesCut(r.cuts, u) + Live(r.buffer, u)) + (if e.Write? && e.user == u then e.data else [])
  {
    match e
    case Write(user, data, _) =>
      assert BytesCut(r.cuts, u) + (Live(r.buffer, u) + data) == (BytesCut(r.cuts, u) + Live(r.buffer, u)) + data;
    case Poll(now) => ConservationPass(r, Some(silence), now, u);
    case DrainAll(now) => ConservationPass(r, None, now, u);
  }

  /** For each user, the bytes of the segments cut so far, in order, followed by the live buffer, are exactly the
      bytes written. */
  lemma {:induction false} Conservation(es: seq<Event>, silence: int, u: User)
    ensures var r := Run(es, silence);
      BytesCut(r.cuts, u) + Live(r.buffer, u) == BytesWritten(es, u)
  {
    if es != [] {
      var n := |es| - 1;
      var r := Run(es[..n], silence);
      Conservation(es[..n], silence, u);
      RunWellFormed(es[..n], silence);
      ConservationStep(r, es[n], silence, u);
    }
  }

  /** After the `drain_all` of `leave` nothing is left in the buffer: every byte written has been cut. */
  lemma LeaveEmptiesBuffer(es: seq<Event>, silence: int, now: int, u: User)
    ensures BytesCut(Run(es + [DrainAll(now)], silence).cuts, u) == BytesWritten(es, u)
  {
    var all := es + [DrainAll(now)];
    assert all[..|es|] == es && all[|all| - 1] == DrainAll(now);
    Conservation(all, silence, u);
    var b := Run(es, silence).buffer;
    assert Run(all, silence).buffer == Popped(b, None, now);
    assert Live(Popped(b, None, now), u) == [];
    assert BytesWritten(all, u) == BytesWritten(es, u) + [];
    assert BytesCut(Run(all, silence).cuts, u) + [] == BytesCut(Run(all, silence).cuts, u);
  }

  // ---- gaps ----

  ghost predicate Ticking(es: seq<Event>) {
    forall i, j :: 0 <= i < j < |es| ==> es[i].now <= es[j].now
  }

  /** Whether an event ends a segment whose last write was at `a`. */
  predicate Ends(e: Event, a: int, silence: int) {
    e.DrainAll? || (e.Poll? && e.now - a >= silence)
  }

  predicate Writes(e: Event, u: User) { e.Write? && e.user == u }

  lemma EndsTakes(r: Result, e: Event, silence: int, u: User)
    requires !Writes(e, u) && (Live(r.buffer, u) != [] ==> u in r.buffer.last)
    ensures var b, t := r.buffer, Apply(r, e, silence).buffer;
      && (Live(t, u) != [] <==> Live(b, u) != [] && !Ends(e, b.last[u], silence))
      && (Live(t, u) != [] ==> u in t.last && t.last[u] == b.last[u])
  {}

  lemma WriteIsLive(r: Result, e: Event, silence: int)
    requires e.Write? && e.data != []
    ensures var t := Apply(r, e, silence).buffer;
      Live(t, e.user) != [] && e.user in t.last && t.last[e.user] == e.now
  {}

  /** Between two writes of a user, the segment survives exactly until an event that ends it. */
  lemma {:induction false} SurvivesUntilEnded(es: seq<Event>, silence: int, u: User, i: nat)
    requires i < |es| && Writes(es[i], u) && es[i].data != []
    requires forall k :: i < k < |es| ==> !Writes(es[k], u)
    ensures var b := Run(es, silence).buffer;
      && (Live(b, u) != [] <==> forall k :: i < k < |es| ==> !Ends(es[k], es[i].now, silence))
      && (Live(b, u) != [] ==> u in b.last && b.last[u] == es[i].now)
  {
    var n := |es| - 1;
    if i < n {
      var r := Run(es[..n], silence);
      SurvivesUntilEnded(es[..n], silence, u, i);
      assert forall k :: i < k < n ==> es[..n][k] == es[k];
      EndsTakes(r, es[n], silence, u);
    } else {
      WriteIsLive(Run(es[..n], silence), es[n], silence);
    }
  }

  // ---- what a segment spans ----

  /** What is live of a user after `k` events. */
  function LiveAt(es: seq<Event>, silence: int, u: User, k: nat): seq<Byte>
    requires k <= |es|
  {
    Live(Run(es[..k], silence).buffer, u)
  }

  lemma LiveBefore(es: seq<Event>, silence: int, u: User, n: nat, k: nat)
    requires k <= n <= |es|
    ensures LiveAt(es[..n], silence, u, k) == LiveAt(es, silence, u, k)
  {
    assert es[..n][..k] == es[..k];
  }

  /** Write `i` opened the segment of a user that is live after the events, and write `j` is the last one since. */
  ghost predicate Span(es: seq<Event>, silence: int, u: User, i: nat, j: nat) {
    && i <= j < |es| && Writes(es[i], u) && es[i].data != [] && Writes(es[j], u)
    && LiveAt(es, silence, u, i) == []
    && (forall k :: i < k <= |es| ==> LiveAt(es, silence, u, k) != [])
    && (forall k :: j < k < |es| ==> !Writes(es[k], u))
  }

  lemma SpanSnoc(es: seq<Event>, silence: int, u: User, i: nat, j: nat)
    requires es != [] && Span(es[..|es| - 1], silence, u, i, j) && LiveAt(es, silence, u, |es|) != []
    ensures Span(es, silence, u, i, if Writes(es[|es| - 1], u) then |es| - 1 else j)
  {
    var n := |es| - 1;
    LiveBefore(es, silence, u, n, i);
    forall k | i < k <= n ensures LiveAt(es, silence, u, k) != [] {
      LiveBefore(es, silence, u, n, k);
    }
    forall k | j < k < n ensures !Writes(es[k], u) {
      assert es[..n][k] == es[k];
    }
  }

  lemma SpanStart(es: seq<Event>, silence: int, u: User)
    requires es != [] && Writes(es[|es| - 1], u) && es[|es| - 1].data != []
    requires LiveAt(es, silence, u, |es| - 1) == [] && LiveAt(es, silence, u, |es|) != []
    ensures Span(es, silence, u, |es| - 1, |es| - 1)
  {}

  lemma BytesWrittenFrom(es: seq<Event>, i: nat, u: User)
    requires i < |es|
    ensures BytesWritten(es[i..], u) ==
      BytesWritten(es[..|es| - 1][i..], u) + if Writes(es[|es| - 1], u) then es[|es| - 1].data else []
  {
    assert es[i..][..|es| - i - 1] == es[..|es| - 1][i..];
  }

  /** What is live of a user starts when the first non-empty write since the last segment came, was last written when
      the last write came, and is all that was written in between. */
  ghost predicate LiveSince(es: seq<Event>, silence: int, u: User, i: nat, j: nat) {
    var b := Run(es, silence).buffer;
    && Span(es, silence, u, i, j)
    && u in b.start && u in b.last && b.start[u] == es[i].now && b.last[u] == es[j].now
    && Live(b, u) == BytesWritten(es[i..], u)
  }

  lemma {:induction false} LiveSpan(es: seq<Event>, silence: int, u: User)
    requires Live(Run(es, silence).buffer, u) != []
    ensures exists i: nat, j: nat :: LiveSince(es, silence, u, i, j)
  {
    var n := |es| - 1;
    assert es[..|es|] == es;
    if Live(Run(es[..n], silence).buffer, u) == [] {
      FirstWrite(es, silence, u);
    } else {
      LiveSpan(es[..n], silence, u);
      var i: nat, j: nat :| LiveSince(es[..n], silence, u, i, j);
      LaterEvent(es, silence, u, i, j);
    }
  }

  lemma FirstWrite(es: seq<Event>, silence: int, u: User)
    requires es != [] && Live(Run(es[..|es| - 1], silence).buffer, u) == [] && Live(Run(es, silence).buffer, u) != []
    ensures LiveSince(es, silence, u, |es| - 1, |es| - 1)
  {
    assert es[..|es|] == es;
    SpanStart(es, silence, u);
    BytesWrittenFrom(es, |es| - 1, u);
  }

  lemma LaterEvent(es: seq<Event>, silence: int, u: User, i: nat, j: nat)
    requires es != [] && LiveSince(es[..|es| - 1], silence, u, i, j) && Live(Run(es, silence).buffer, u) != []
    ensures LiveSince(es, silence, u, i, if Writes(es[|es| - 1], u) then |es| - 1 else j)
  {
    var n := |es| - 1;
    assert es[..|es|] == es;
    assert LiveAt(es[..n], silence, u, n) != [] && es[..n][..n] == es[..n];
    SpanSnoc(es, silence, u, i, j);
    BytesWrittenFrom(es, i, u);
    LiveGoesOn(Run(es[..n], silence), es[n], silence, u);
  }

  /** A step that leaves a segment live leaves its start, and only a write of the user adds to it. */
  lemma LiveGoesOn(r: Result, e: Event, silence: int, u: User)
    requires Live(r.buffer, u) != [] && u in r.buffer.start && u in r.buffer.last
    requires Live(Apply(r, e, silence).buffer, u) != []
    ensures var b, t := r.buffer, Apply(r, e, silence).buffer;
      && u in t.start && t.start[u] == b.start[u]
      && u in t.last && t.last[u] == (if Writes(e, u) then e.now else b.last[u])
      && Live(t, u) == Live(b, u) + if Writes(e, u) then e.data else []
  {}

  /** A cut was made by event `n`: a poll that found its user silent for the threshold, or a `drain_all`. Its start is
      the time of the first non-empty write since the user's previous segment, its end that of the last write, and its
      sound all that was written in between. */
  ghost predicate CutBy(es: seq<Event>, silence: int, c: Cut, n: nat, i: nat, j: nat) {
    && n < |es| && Span(es[..n], silence, c.user, i, j) && Ends(es[n], es[j].now, silence)
    && c.start == es[i].now && c.last == es[j].now && c.pcm == BytesWritten(es[i..n], c.user)
  }

  lemma {:induction false} PassMember(b: Buffer, users: seq<User>, silence: Option<int>, now: int, c: Cut)
    requires c in CutsFrom(b, users, silence, now)
    ensures Takes(b, c.user, silence, now) && c == CutOf(b, c.user, now)
  {
    var rest, u := CutsFrom(b, users[..|users| - 1], silence, now), users[|users| - 1];
    if c in rest {
      PassMember(b, users[..|users| - 1], silence, now, c);
    }
  }

  /** The times and the sound of every segment ever cut. */
  lemma {:induction false} CutSpan(es: seq<Event>, silence: int, c: Cut)
    requires c in Run(es, silence).cuts
    ensures exists n: nat, i: nat, j: nat :: CutBy(es, silence, c, n, i, j)
  {
    var m := |es| - 1;
    if c in Run(es[..m], silence).cuts {
      CutSpan(es[..m], silence, c);
      var n: nat, i: nat, j: nat :| CutBy(es[..m], silence, c, n, i, j);
      EarlierCut(es, silence, c, n, i, j);
    } else {
      LastPass(es, silence, c);
    }
  }

  lemma EarlierCut(es: seq<Event>, silence: int, c: Cut, n: nat, i: nat, j: nat)
    requires es != [] && CutBy(es[..|es| - 1], silence, c, n, i, j)
    ensures CutBy(es, silence, c, n, i, j)
  {
    var m := |es| - 1;
    assert es[..m][..n] == es[..n] && es[..m][i..n] == es[i..n];
  }

  lemma LastPass(es: seq<Event>, silence: int, c: Cut)
    requires es != [] && c in Run(es, silence).cuts && c !in Run(es[..|es| - 1], silence).cuts
    ensures exists n: nat, i: nat, j: nat :: CutBy(es, silence, c, n, i, j)
  {
    var m := |es| - 1;
    var b, threshold := Run(es[..m], silence).buffer, if es[m].Poll? then Some(silence) else None;
    PassMember(b, b.keys, threshold, es[m].now, c);
    LiveSpan(es[..m], silence, c.user);
    var i: nat, j: nat :| LiveSince(es[..m], silence, c.user, i, j);
    assert es[..m][i..] == es[i..m];
    assert CutBy(es, silence, c, m, i, j);
  }

  // ---- in what order ----

  /** The users in the order of their first writes. */
  function Speakers(es: seq<Event>): seq<User> {
    if es == [] then []
    else
      var before, e := Speakers(es[..|es| - 1]), es[|es| - 1];
      if e.Write? && e.user !in before then before + [e.user] else before
  }

  ghost predicate Ordered(users: seq<User>, cuts: seq<Cut>) {
    forall i, j :: 0 <= i < j < |cuts| ==>
      exists a, b :: 0 <= a < b < |users| && users[a] == cuts[i].user && users[b] == cuts[j].user
  }

  lemma {:induction false} KeysInOrder(es: seq<Event>, silence: int)
    ensures Run(es, silence).buffer.keys == Speakers(es)
    ensures forall u :: u in Run(es, silence).buffer.buf <==> u in Speakers(es)
  {
    if es != [] {
      KeysInOrder(es[..|es| - 1], silence);
    }
  }

  lemma {:induction false} PassInOrder(b: Buffer, users: seq<User>, silence: Option<int>, now: int)
    ensures var cuts := CutsFrom(b, users, silence, now);
      Ordered(users, cuts) && forall i :: 0 <= i < |cuts| ==> cuts[i].user in users
  {
    if users != [] {
      var n := |users| - 1;
      var rest, cuts := CutsFrom(b, users[..n], silence, now), CutsFrom(b, users, silence, now);
      PassInOrder(b, users[..n], silence, now);
      forall i, j | 0 <= i < j < |cuts|
        ensures exists k, l :: 0 <= k < l < |users| && users[k] == cuts[i].user && users[l] == cuts[j].user
      {
        if j < |rest| {
          var k, l :| 0 <= k < l < n && users[..n][k] == rest[i].user && users[..n][l] == rest[j].user;
          assert users[k] == cuts[i].user && users[l] == cuts[j].user;
        } else {
          assert rest[i].user in users[..n];
          var k :| 0 <= k < n && users[..n][k] == rest[i].user;
          assert users[k] == cuts[i].user && users[n] == cuts[j].user;
        }
      }
    }
  }

  /** What a poll or `drain_all` cuts comes after all that was cut before, and in the order in which the users first
      wrote. */
  lemma CutsInOrder(es: seq<Event>, silence: int)
    requires es != []
    ensures exists pass :: (
      && Run(es, silence).cuts == Run(es[..|es| - 1], silence).cuts + pass && Ordered(Speakers(es), pass))
  {
    var n := |es| - 1;
    var r, e := Run(es[..n], silence), es[n];
    var before := r.cuts;
    if e.Write? {
      assert before + [] == before && Ordered(Speakers(es), []);
    } else {
      var threshold := if e.Poll? then Some(silence) else None;
      KeysInOrder(es[..n], silence);
      PassInOrder(r.buffer, r.buffer.keys, threshold, e.now);
      var pass := CutsFrom(r.buffer, r.buffer.keys, threshold, e.now);
      assert Run(es, silence).cuts == before + pass && Ordered(Speakers(es), pass);
    }
  }

  /** Writes of one user less than the threshold apart always share a segment. */
  lemma CloseWritesShare(es: seq<Event>, silence: int, u: User, i: nat, j: nat)
    requires Ticking(es) && i < j < |es| && Writes(es[i], u) && Writes(es[j], u) && es[i].data != []
    requires forall k :: i < k < j ==> !Writes(es[k], u) && !es[k].DrainAll?
    requires es[j].now - es[i].now < silence
    ensures Live(Run(es[..j], silence).buffer, u) != []
  {
    SurvivesUntilEnded(es[..j], silence, u, i);
  }

  /** The time of the last turn of `flusher`, or of its start. */
  function LastPoll(es: seq<Event>, begin: int): int {
    if es == [] then begin
    else if es[|es| - 1].Poll? then es[|es| - 1].now
    else LastPoll(es[..|es| - 1], begin)
  }

  /** `flusher` is never more than `period` ticks behind. */
  ghost predicate PolledEvery(es: seq<Event>, begin: int, period: int) {
    forall k :: 0 <= k < |es| ==> es[k].now - LastPoll(es[..k], begin) <= period
  }

  lemma {:induction false} LastPollIsAnEvent(es: seq<Event>, begin: int)
    ensures LastPoll(es, begin) == begin || exists k :: 0 <= k < |es| && es[k].Poll? && es[k].now == LastPoll(es, begin)
  {
    if es != [] && !es[|es| - 1].Poll? {
      LastPollIsAnEvent(es[..|es| - 1], begin);
      assert forall k :: 0 <= k < |es| - 1 ==> es[..|es| - 1][k] == es[k];
    }
  }

  /** Writes of one user at least threshold plus period apart never share a segment: the live buffer is empty when the
      second arrives. */
  lemma DistantWritesSplit(es: seq<Event>, silence: int, begin: int, period: int, u: User, i: nat, j: nat)
    requires silence > 0 && Ticking(es) && PolledEvery(es, begin, period)
    requires i < j < |es| && Writes(es[i], u) && Writes(es[j], u) && es[i].data != []
    requires forall k :: i < k < j ==> !Writes(es[k], u)
    requires begin <= es[0].now && es[j].now - es[i].now >= silence + period
    ensures Live(Run(es[..j], silence).buffer, u) == []
  {
    var a := es[i].now;
    SurvivesUntilEnded(es[..j], silence, u, i);
    LastPollIsAnEvent(es[..j], begin);
    var p := LastPoll(es[..j], begin);
    assert es[j].now - p <= period;
    assert p >= a + silence > a;
    var k :| 0 <= k < j && es[..j][k].Poll? && es[..j][k].now == p;
    assert es[k].now > es[i].now;
    assert i < k;
    assert Ends(es[..j][k], a, silence);
  }

  /** The segments of one user, in order. */
  function CutsOf(cuts: seq<Cut>, u: User): seq<Cut> {
    if cuts == [] then []
    else
      var c := cuts[|cuts| - 1];
      CutsOf(cuts[..|cuts| - 1], u) + (if c.user == u then [c] else [])
  }

  lemma {:induction false} CutsOfAppend(a: seq<Cut>, b: seq<Cut>, u: User)
    ensures CutsOf(a + b, u) == CutsOf(a, u) + CutsOf(b, u)
  {
    if b == [] {
      assert a + b == a;
    } else {
      var n := |b| - 1;
      assert (a + b)[..|a| + n] == a + b[..n];
      CutsOfAppend(a, b[..n], u);
    }
  }

  lemma {:induction false} PassCutsOnce(b: Buffer, users: seq<User>, silence: Option<int>, now: int, u: User)
    requires forall i, j :: 0 <= i < j < |users| ==> users[i] != users[j]
    ensures CutsOf(CutsFrom(b, users, silence, now), u) ==
      if u in users && Takes(b, u, silence, now) then [CutOf(b, u, now)] else []
  {
    if users != [] {
      var n := |users| - 1;
      PassCutsOnce(b, users[..n], silence, now, u);
      assert u in users <==> u in users[..n] || u == users[n];
      var rest := CutsFrom(b, users[..n], silence, now);
      if Takes(b, users[n], silence, now) {
        CutsOfAppend(rest, [CutOf(b, users[n], now)], u);
        assert CutsOf([CutOf(b, users[n], now)], u) == if users[n] == u then [CutOf(b, u, now)] else [];
      } else {
        assert CutsFrom(b, users, silence, now) == rest;
      }
    }
  }

  function Clock(es: seq<Event>): int { if es == [] then 0 else es[|es| - 1].now }

  ghost predicate Gaps(cs: seq<Cut>, silence: int) {
    forall i :: 0 <= i < |cs| - 1 ==> cs[i + 1].start - cs[i].last >= silence
  }

  lemma GapsSnoc(cs: seq<Cut>, c: Cut, silence: int)
    requires Gaps(cs, silence) && (cs != [] ==> c.start - cs[|cs| - 1].last >= silence)
    ensures Gaps(cs + [c], silence)
  {}

  /** Consecutive segments of a user are apart by the threshold, and so is what is still in the buffer. */
  ghost predicate Apart(r: Result, u: User, silence: int, clock: int) {
    var cs := CutsOf(r.cuts, u);
    && Gaps(cs, silence)
    && (cs != [] ==> clock - cs[|cs| - 1].last >= silence)
    && (Live(r.buffer, u) != [] ==>
          && u in r.buffer.start && u in r.buffer.last && r.buffer.last[u] <= clock
          && (cs != [] ==> r.buffer.start[u] - cs[|cs| - 1].last >= silence))
  }

  lemma ApartStep(r: Result, e: Event, u: User, silence: int, clock: int)
    requires WellFormed(r.buffer) && Apart(r, u, silence, clock) && !e.DrainAll?
    requires r != Result(EMPTY, []) ==> clock <= e.now
    ensures Apart(Apply(r, e, silence), u, silence, e.now)
  {
    if e.Poll? {
      PassCutsOf(r.buffer, Some(silence), e.now, u);
      PollApart(r, CutsFrom(r.buffer, r.buffer.keys, Some(silence), e.now), e.now, u, silence, clock);
    }
  }

  /** A poll takes what has been silent for the threshold, and a user's segment once. */
  lemma PollApart(r: Result, pass: seq<Cut>, now: int, u: User, silence: int, clock: int)
    requires Apart(r, u, silence, clock) && (r != Result(EMPTY, []) ==> clock <= now)
    requires CutsOf(pass, u) == if Takes(r.buffer, u, Some(silence), now) then [CutOf(r.buffer, u, now)] else []
    ensures Apart(Result(Popped(r.buffer, Some(silence), now), r.cuts + pass), u, silence, now)
  {
    var b := r.buffer;
    CutsOfAppend(r.cuts, pass, u);
    if Takes(b, u, Some(silence), now) {
      GapsSnoc(CutsOf(r.cuts, u), CutOf(b, u, now), silence);
      assert Live(Popped(b, Some(silence), now), u) == [];
    } else {
      assert CutsOf(r.cuts + pass, u) == CutsOf(r.cuts, u);
      assert Live(Popped(b, Some(silence), now), u) == Live(b, u);
    }
  }

  lemma PassCutsOf(b: Buffer, silence: Option<int>, now: int, u: User)
    requires WellFormed(b)
    ensures CutsOf(CutsFrom(b, b.keys, silence, now), u) == if Takes(b, u, silence, now) then [CutOf(b, u, now)] else []
  {
    PassCutsOnce(b, b.keys, silence, now, u);
  }

  lemma {:induction false} RunApart(es: seq<Event>, silence: int, u: User)
    requires Ticking(es) && forall k :: 0 <= k < |es| ==> !es[k].DrainAll?
    ensures Apart(Run(es, silence), u, silence, Clock(es))
  {
    if es != [] {
      var n := |es| - 1;
      RunApart(es[..n], silence, u);
      RunWellFormed(es[..n], silence);
      if n > 0 {
        assert es[..n][n - 1] == es[n - 1];
      }
      ApartStep(Run(es[..n], silence), es[n], u, silence, Clock(es[..n]));
    }
  }

  /** Whatever `drain_all` takes is as far from the last segment as what was in the buffer. */
  lemma DrainGaps(r: Result, pass: seq<Cut>, now: int, u: User, silence: int, clock: int)
    requires Apart(r, u, silence, clock)
    requires CutsOf(pass, u) == if Takes(r.buffer, u, None, now) then [CutOf(r.buffer, u, now)] else []
    ensures Gaps(CutsOf(r.cuts + pass, u), silence)
  {
    CutsOfAppend(r.cuts, pass, u);
    if Takes(r.buffer, u, None, now) {
      GapsSnoc(CutsOf(r.cuts, u), CutOf(r.buffer, u, now), silence);
    } else {
      assert CutsOf(r.cuts + pass, u) == CutsOf(r.cuts, u);
    }
  }

  lemma RunPassCuts(es: seq<Event>, silence: int, threshold: Option<int>, now: int, u: User)
    ensures var b := Run(es, silence).buffer;
      CutsOf(CutsFrom(b, b.keys, threshold, now), u) == if Takes(b, u, threshold, now) then [CutOf(b, u, now)] else []
  {
    RunWellFormed(es, silence);
    PassCutsOf(Run(es, silence).buffer, threshold, now, u);
  }

  /** Consecutive segments of a user are separated by at least the silence threshold, the one that `leave` cuts
      included. */
  lemma SegmentsApart(es: seq<Event>, silence: int, u: User)
    requires Ticking(es) && forall k :: 0 <= k < |es| - 1 ==> !es[k].DrainAll?
    ensures Gaps(CutsOf(Run(es, silence).cuts, u), silence)
  {
    var n := |es| - 1;
    if es != [] && es[n].DrainAll? {
      var r, now := Run(es[..n], silence), es[n].now;
      RunApart(es[..n], silence, u);
      RunPassCuts(es[..n], silence, None, now, u);
      DrainGaps(r, CutsFrom(r.buffer, r.buffer.keys, None, now), now, u, silence, Clock(es[..n]));
    } else {
      RunApart(es, silence, u);
    }
  }
}
