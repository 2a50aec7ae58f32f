/**
 `PcmBuffer` of bot.py: per-user PCM, cut into segments at silence gaps. Times are ticks of the monotonic clock.
 The class below is proved against the value-level operations `Written` and `Popped`.
 */
module PcmBuffers {
  import opened Bytes
  import opened Wrappers

  type User = nat

  /** What `_pop` yields for one user. */
  datatype Cut = Cut(user: User, pcm: seq<Byte>, start: int, last: int)

  /** The three dictionaries; `keys` is the insertion order of `buf`. */
  datatype Buffer = Buffer(keys: seq<User>, buf: map<User, seq<Byte>>, last: map<User, int>, start: map<User, int>)

  const EMPTY := Buffer([], map[], map[], map[])

  /** `keys` lists the keys of `buf` once each, and a user with live PCM has both times. */
  ghost predicate WellFormed(b: Buffer) {
    && (forall i :: 0 <= i < |b.keys| ==> b.keys[i] in b.buf)
    && (forall u :: u in b.buf ==> u in b.keys)
    && (forall i, j :: 0 <= i < j < |b.keys| ==> b.keys[i] != b.keys[j])
    && (forall u :: u in b.buf && b.buf[u] != [] ==> u in b.start && u in b.last)
  }

  function Get(m: map<User, int>, u: User, default: int): int { if u in m then m[u] else default }

  function Live(b: Buffer, u: User): seq<Byte> { if u in b.buf then b.buf[u] else [] }

  function Written(b: Buffer, u: User, data: seq<Byte>, now: int): Buffer {
    Buffer(if u in b.buf then b.keys else b.keys + [u],
           b.buf[u := Live(b, u) + data],
           b.last[u := now],
           if Live(b, u) == [] then b.start[u := now] else b.start)
  }

  /** Whether `_pop` takes a user's segment: `silence` is the threshold of `drain_ready`, absent in `drain_all`. */
  predicate Takes(b: Buffer, u: User, silence: Option<int>, now: int) {
    u in b.buf && b.buf[u] != [] && (silence.Some? ==> now - Get(b.last, u, now) >= silence.value)
  }

  function CutOf(b: Buffer, u: User, now: int): Cut {
    Cut(u, Live(b, u), Get(b.start, u, now), Get(b.last, u, now))
  }

  function CutsFrom(b: Buffer, users: seq<User>, silence: Option<int>, now: int): seq<Cut> {
    if users == [] then []
    else
      var u := users[|users| - 1];
      CutsFrom(b, users[..|users| - 1], silence, now) + (if Takes(b, u, silence, now) then [CutOf(b, u, now)] else [])
  }

  function Popped(b: Buffer, silence: Option<int>, now: int): Buffer {
    b.(buf := map u | u in b.buf :: if Takes(b, u, silence, now) then [] else b.buf[u])
  }

  lemma WrittenWellFormed(b: Buffer, u: User, data: seq<Byte>, now: int)
    requires WellFormed(b)
    ensures WellFormed(Written(b, u, data, now))
  {}

  lemma PoppedWellFormed(b: Buffer, silence: Option<int>, now: int)
    requires WellFormed(b)
    ensures WellFormed(Popped(b, silence, now))
  {}

  /** The state of `_pop` when it has visited some of the users. */
  ghost function PoppedFor(b: Buffer, users: set<User>, silence: Option<int>, now: int): map<User, seq<Byte>> {
    map u | u in b.buf :: if u in users && Takes(b, u, silence, now) then [] else b.buf[u]
  }

  lemma PoppedForOne(b: Buffer, users: set<User>, u: User, silence: Option<int>, now: int)
    requires u in b.buf && u !in users
    ensures PoppedFor(b, users, silence, now)[u] == b.buf[u]
    ensures PoppedFor(b, users + {u}, silence, now) ==
      var before := PoppedFor(b, users, silence, now);
      if Takes(b, u, silence, now) then before[u := []] else before
  {}

  /** A pass decides about a user from that user's own entries. */
  lemma PassIsPerUser(b: Buffer, c: Buffer, u: User, silence: Option<int>, now: int)
    requires u in b.buf && u in c.buf && b.buf[u] == c.buf[u] && b.last == c.last && b.start == c.start
    ensures Takes(b, u, silence, now) == Takes(c, u, silence, now) && CutOf(b, u, now) == CutOf(c, u, now)
  {}

  lemma CutsFromNext(b: Buffer, users: seq<User>, i: nat, silence: Option<int>, now: int)
    requires i < |users|
    ensures CutsFrom(b, users[..i + 1], silence, now) ==
      CutsFrom(b, users[..i], silence, now)
        + (if Takes(b, users[i], silence, now) then [CutOf(b, users[i], now)] else [])
  {
    assert users[..i + 1][..i] == users[..i];
  }

  lemma PoppedForAll(b: Buffer, users: set<User>, silence: Option<int>, now: int)
    requires WellFormed(b) && forall i :: 0 <= i < |b.keys| ==> b.keys[i] in users
    ensures PoppedFor(b, users, silence, now) == Popped(b, silence, now).buf
  {}

  class PcmBuffer {
    var keys: seq<User>
    var buf: map<User, seq<Byte>>
    var last: map<User, int>
    var start: map<User, int>

    function View(): Buffer
      reads this
    {
      Buffer(keys, buf, last, start)
    }

    constructor ()
      ensures View() == EMPTY && WellFormed(View())
    {
      keys, buf, last, start := [], map[], map[], map[];
    }

    /** `write`, called for every decoded frame. */
    method Write(u: User, data: seq<Byte>, now: int)
      modifies this
      ensures View() == Written(old(View()), u, data, now)
    {
      if u !in buf {
        keys, buf := keys + [u], buf[u := []];
      }
      if buf[u] == [] {
        start := start[u := now];
      }
      buf := buf[u := buf[u] + data];
      last := last[u := now];
    }

    /** One turn of the loop of `_pop`. */
    method PopUser(u: User, silence: Option<int>, now: int) returns (out: seq<Cut>)
      requires u in buf
      modifies `buf
      ensures out == if Takes(old(View()), u, silence, now) then [CutOf(old(View()), u, now)] else []
      ensures buf == if Takes(old(View()), u, silence, now) then old(buf)[u := []] else old(buf)
    {
      if buf[u] == [] {
        return [];
      }
      if silence.Some? && now - Get(last, u, now) < silence.value {
        return [];
      }
      out := [Cut(u, buf[u], Get(start, u, now), Get(last, u, now))];
      buf := buf[u := []];
    }

    /** The loop of `_pop`. */
    method PopAll(silence: Option<int>, now: int) returns (out: seq<Cut>, ghost done: set<User>)
      requires forall i :: 0 <= i < |keys| ==> keys[i] in buf
      requires forall i, j :: 0 <= i < j < |keys| ==> keys[i] != keys[j]
      modifies `buf
      ensures out == CutsFrom(old(View()), keys, silence, now)
      ensures buf == PoppedFor(old(View()), done, silence, now) && forall i :: 0 <= i < |keys| ==> keys[i] in done
    {
      out := [];
      var i := 0;
      ghost var b := View();
      done := {};
      assert buf == PoppedFor(b, done, silence, now);
      while i < |keys|
        invariant i <= |keys| && buf == PoppedFor(b, done, silence, now)
        invariant forall j :: 0 <= j < i ==> keys[j] in done
        invariant forall j :: i <= j < |keys| ==> keys[j] !in done
        invariant out == CutsFrom(b, keys[..i], silence, now)
      {
        var u := keys[i];
        CutsFromNext(b, keys, i, silence, now);
        PoppedForOne(b, done, u, silence, now);
        PassIsPerUser(b, View(), u, silence, now);
        var cut := PopUser(u, silence, now);
        out := out + cut;
        done := done + {u};
        i := i + 1;
      }
      assert keys[..i] == keys;
    }

    /** `_pop`: one pass over the users, emptying the buffers it takes. */
    method Pop(silence: Option<int>, now: int) returns (out: seq<Cut>)
      requires WellFormed(View())
      modifies `buf
      ensures out == CutsFrom(old(View()), keys, silence, now)
      ensures View() == Popped(old(View()), silence, now)
    {
      ghost var b, done := View(), {};
      out, done := PopAll(silence, now);
      PoppedForAll(b, done, silence, now);
    }

    method DrainReady(silence: int, now: int) returns (out: seq<Cut>)
      requires WellFormed(View())
      modifies `buf
      ensures out == CutsFrom(old(View()), keys, Some(silence), now)
      ensures View() == Popped(old(View()), Some(silence), now) && WellFormed(View())
    {
      PoppedWellFormed(View(), Some(silence), now);
      out := Pop(Some(silence), now);
    }

    method DrainAll(now: int) returns (out: seq<Cut>)
      requires WellFormed(View())
      modifies `buf
      ensures out == CutsFrom(old(View()), keys, None, now)
      ensures View() == Popped(old(View()), None, now) && WellFormed(View())
      ensures forall u :: Live(View(), u) == []
    {
      PoppedWellFormed(View(), None, now);
      out := Pop(None, now);
    }
  }
}
