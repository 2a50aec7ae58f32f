/**
 Runs of the receive machine, with packets between any two steps: what the MLS session may rely on, which tables
 agree, and to whom sound is attributed.
 */
module VoiceRuns {
  import opened Bytes
  import opened Wrappers
  import opened Mls
  import opened VoiceClients
  import opened VoiceGateways
  import Framing
  import Rtp

  function Run(env: Foreign, g: Gateway, es: seq<Event>): (t: Option<Gateway>)
    requires Disciplined(g.client.mls)
    ensures t.Some? ==> Disciplined(t.value.client.mls) && t.value.client.mls.group == g.client.mls.group
  {
    if es == [] then Some(g)
    else
      match Run(env, g, es[..|es| - 1])
      case None => None
      case Some(h) => Step(env, h, es[|es| - 1])
  }

  /** A run of a new client ends in `t`. The quantifier keeps proofs that only pass this on from unfolding the run. */
  ghost predicate Reaches(env: Foreign, channel: nat, es: seq<Event>, t: Gateway) {
    forall start :: start == NewGateway(channel) ==> Run(env, start, es) == Some(t)
  }

  lemma ReachesStart(env: Foreign, channel: nat, t: Gateway)
    requires Reaches(env, channel, [], t)
    ensures t == NewGateway(channel)
  {
    assert Run(env, NewGateway(channel), []) == Some(t);
  }

  lemma ReachesLast(env: Foreign, channel: nat, es: seq<Event>, t: Gateway) returns (g: Gateway)
    requires es != [] && Reaches(env, channel, es, t)
    ensures Reaches(env, channel, es[..|es| - 1], g) && Disciplined(g.client.mls)
    ensures Step(env, g, es[|es| - 1]) == Some(t)
  {
    assert Run(env, NewGateway(channel), es) == Some(t);
    g := Run(env, NewGateway(channel), es[..|es| - 1]).value;
  }

  lemma ReachesDisciplined(env: Foreign, channel: nat, es: seq<Event>, t: Gateway)
    requires Reaches(env, channel, es, t)
    ensures Disciplined(t.client.mls)
  {
    assert Run(env, NewGateway(channel), es) == Some(t);
  }

  lemma ReachesMore(env: Foreign, channel: nat, es: seq<Event>, g: Gateway, e: Event, t: Gateway)
    requires Reaches(env, channel, es, g) && Disciplined(g.client.mls) && Step(env, g, e) == Some(t)
    ensures Reaches(env, channel, es + [e], t)
  {
    assert (es + [e])[..|es|] == es;
  }

  /** Session discipline over whole runs. `Init` and `SetProtocolVersion` demand a blank and a started session, so
      that a run exists at all says that neither is ever called out of turn. */
  lemma SessionDiscipline(env: Foreign, channel: nat, es: seq<Event>, t: Gateway)
    requires Reaches(env, channel, es, t)
    ensures var m := t.client.mls;
      && m.initialized == m.session.started
      && (m.initialized ==> m.session.version == m.version && m.session.group == channel)
  {
    assert Run(env, NewGateway(channel), es) == Some(t);
  }

  /** Registry agreement: no Opus decoder without a decryptor, no decryptor without a mapped SSRC, and every mapped
      user recognized. */
  predicate Agrees(c: Client) {
    && c.opus.Keys <= c.mls.decryptors.Keys <= c.users.Keys
    && forall ssrc :: ssrc in c.users ==> c.users[ssrc] in c.mls.recognized
  }

  lemma HandledAgrees(env: Foreign, c: Client, data: seq<Byte>)
    requires Agrees(c)
    ensures Agrees(Handled(env, c, data))
  {}

  lemma TextAgrees(g: Gateway, text: Text, a: Answer)
    requires Disciplined(g.client.mls) && Agrees(g.client)
    ensures Agrees(OnText(g, text, a).client)
  {
    match text
    case Disconnect(_) =>
    case Speaking(_, _) =>
    case Connect(_) =>
    case _ =>
  }

  lemma StepAgrees(env: Foreign, g: Gateway, e: Event)
    requires Disciplined(g.client.mls) && Step(env, g, e).Some? && Agrees(g.client)
    ensures Agrees(Step(env, g, e).value.client)
  {
    match e
    case TextMessage(seqNo, text, a) => TextAgrees(Sequenced(g, seqNo), text, a);
    case BinaryMessage(_, _) =>
    case Packet(data) => HandledAgrees(env, g.client, data);
    case _ =>
  }

  lemma {:induction false} RegistriesAgree(env: Foreign, channel: nat, es: seq<Event>)
    requires Run(env, NewGateway(channel), es).Some?
    ensures Agrees(Run(env, NewGateway(channel), es).value.client)
  {
    if es != [] {
      RegistriesAgree(env, channel, es[..|es| - 1]);
      StepAgrees(env, Run(env, NewGateway(channel), es[..|es| - 1]).value, es[|es| - 1]);
    }
  }

  predicate Binds(e: Event, user: User, ssrc: Ssrc) { e.TextMessage? && e.text == Speaking(user, ssrc) }

  predicate Unbinds(e: Event, user: User, ssrc: Ssrc) {
    e.TextMessage? && (e.text == Disconnect(user) || (e.text.Speaking? && e.text.ssrc == ssrc))
  }

  /** A speaking event bound the SSRC to the user, and nothing undid it. */
  ghost predicate Bound(es: seq<Event>, user: User, ssrc: Ssrc) {
    exists k :: 0 <= k < |es| && Binds(es[k], user, ssrc) && forall j :: k < j < |es| ==> !Unbinds(es[j], user, ssrc)
  }

  predicate Maps(c: Client, user: User, ssrc: Ssrc) { ssrc in c.users && c.users[ssrc] == user }

  lemma StepMaps(env: Foreign, g: Gateway, e: Event, user: User, ssrc: Ssrc)
    requires Disciplined(g.client.mls) && Step(env, g, e).Some?
    ensures Maps(Step(env, g, e).value.client, user, ssrc) <==>
      Binds(e, user, ssrc) || (Maps(g.client, user, ssrc) && !Unbinds(e, user, ssrc))
  {
    match e
    case TextMessage(_, text, _) =>
      match text {
        case Disconnect(_) =>
        case _ =>
      }
    case _ =>
  }

  lemma BoundSnoc(es: seq<Event>, e: Event, user: User, ssrc: Ssrc)
    ensures Bound(es + [e], user, ssrc) <==> Binds(e, user, ssrc) || (Bound(es, user, ssrc) && !Unbinds(e, user, ssrc))
  {
    var all := es + [e];
    if Bound(all, user, ssrc) && !Binds(e, user, ssrc) {
      var k :| 0 <= k < |all| && Binds(all[k], user, ssrc)
               && forall j :: k < j < |all| ==> !Unbinds(all[j], user, ssrc);
      assert all[|es|] == e && forall j :: k < j < |es| ==> es[j] == all[j];
      assert Binds(es[k], user, ssrc);
    }
    if Binds(e, user, ssrc) {
      assert Binds(all[|es|], user, ssrc);
    } else if Bound(es, user, ssrc) && !Unbinds(e, user, ssrc) {
      var k :| 0 <= k < |es| && Binds(es[k], user, ssrc) && forall j :: k < j < |es| ==> !Unbinds(es[j], user, ssrc);
      assert Binds(all[k], user, ssrc);
    }
  }

  /** After any run an SSRC belongs to a user exactly when a speaking event of that user claimed it and since then
      neither the user left nor anyone else claimed it. */
  lemma {:induction false} MappedExactly(env: Foreign, channel: nat, es: seq<Event>, user: User, ssrc: Ssrc)
    requires Run(env, NewGateway(channel), es).Some?
    ensures Maps(Run(env, NewGateway(channel), es).value.client, user, ssrc) <==> Bound(es, user, ssrc)
  {
    if es != [] {
      var before, e := es[..|es| - 1], es[|es| - 1];
      MappedExactly(env, channel, before, user, ssrc);
      StepMaps(env, Run(env, NewGateway(channel), before).value, e, user, ssrc);
      BoundSnoc(before, e, user, ssrc);
      assert before + [e] == es;
    }
  }

  /** Nothing keyed to a user is left once the user is disconnected, until the user speaks again. */
  lemma NothingLeft(env: Foreign, g: Gateway, seqNo: Option<nat>, user: User, a: Answer)
    requires Disciplined(g.client.mls) && Agrees(g.client) && g.phase == Idle
    ensures var r := Step(env, g, TextMessage(seqNo, Disconnect(user), a));
      && r.Some? && user !in r.value.client.mls.recognized && user !in r.value.client.users.Values
      && forall ssrc :: Maps(g.client, user, ssrc) ==>
          ssrc !in r.value.client.users && ssrc !in r.value.client.mls.decryptors && ssrc !in r.value.client.opus
  {}

  predicate Carries(e: Event, ssrc: Ssrc) {
    e.Packet? && Rtp.ParseRtpHeader(e.data).Some? && Rtp.ParseRtpHeader(e.data).value.ssrc == ssrc
  }

  /** The SSRC of a datagram and the frame inside, when the transport key opens it. */
  function FrameOf(env: Foreign, key: Option<Key>, data: seq<Byte>): Option<(Ssrc, seq<Byte>)> {
    if key.None? || |data| < 12 then None
    else
      match Framing.Receive((a, t, n) => env.open(key.value, a, t, n), data)
      case None => None
      case Some(frame) => Some((Rtp.ParseRtpHeader(data).value.ssrc, frame))
  }

  /** What a call of foreign code yields, if that is anything. */
  function Yield(r: Option<seq<Byte>>): Option<seq<Byte>> { if r == Some([]) then None else r }

  /** What is played of a frame: what the Opus decoder, after all it decoded before, makes of what the decryptor, after
      all that was done to it before, makes of the frame. */
  function SoundOf(env: Foreign, past: seq<DecOp>, decoded: seq<seq<Byte>>, frame: seq<Byte>): Option<seq<Byte>> {
    match Yield(env.decrypt(past, frame))
    case None => None
    case Some(plain) => Yield(env.decode(decoded, plain))
  }

  function UserAt(users: map<Ssrc, User>, ssrc: Ssrc): Option<User> {
    if ssrc in users then Some(users[ssrc]) else None
  }

  function LogAt(decryptors: map<Ssrc, Decryptor>, ssrc: Ssrc): Option<seq<DecOp>> {
    if ssrc in decryptors then Some(decryptors[ssrc].log) else None
  }

  function OrNone<T>(log: Option<seq<T>>): seq<T> { if log.None? then [] else log.value }

  /** The call of `on_pcm` that a packet leads to. */
  function PcmFor(env: Foreign, c: Client, e: Event): seq<Pcm> {
    if !e.Packet? then []
    else
      match FrameOf(env, c.transport, e.data)
      case None => []
      case Some((ssrc, frame)) =>
        var decoded := if ssrc in c.opus then c.opus[ssrc] else [];
        match (UserAt(c.users, ssrc), SoundOf(env, OrNone(LogAt(c.mls.decryptors, ssrc)), decoded, frame))
        case (Some(user), Some(sound)) => [Pcm(ssrc, user, sound)]
        case _ => []
  }

  /** Sound comes out of packets and of nothing else: a frame that the transport key opens, of a mapped SSRC, is played
      for its user if and only if decryptor and Opus decoder both make something of it. */
  lemma StepPcm(env: Foreign, g: Gateway, e: Event)
    requires Disciplined(g.client.mls) && Step(env, g, e).Some?
    ensures Step(env, g, e).value.client.pcm == g.client.pcm + PcmFor(env, g.client, e)
  {
    match e
    case Packet(data) => PacketPcm(env, g.client, data);
    case TextMessage(_, text, _) => match text { case _ => }
    case _ =>
  }

  lemma PacketPcm(env: Foreign, c: Client, data: seq<Byte>)
    ensures Handled(env, c, data).pcm == c.pcm + PcmFor(env, c, Packet(data))
  {
    FrameOfMapped(env, c, data);
    match TransportFrame(env, c, data)
    case None =>
    case Some((ssrc, frame)) =>
      var plain := env.decrypt(Existing(c.mls.decryptors, ssrc).log, frame);
      if plain.Some? && plain.value != [] {
        var pcm := env.decode(OpusLog(c.opus, ssrc), plain.value);
      }
  }

  /** The transport layer accepts a frame exactly if its SSRC is mapped. */
  lemma FrameOfMapped(env: Foreign, c: Client, data: seq<Byte>)
    ensures TransportFrame(env, c, data) ==
      match FrameOf(env, c.transport, data)
      case Some((ssrc, frame)) => if ssrc in c.users then Some((ssrc, frame)) else None
      case None => None
  {}

  /** The step at position `n` played `p` as item `i`, and the SSRC was bound to the user then. */
  ghost predicate PlayedAt(env: Foreign, channel: nat, es: seq<Event>, n: nat, i: nat, p: Pcm)
    requires n < |es|
  {
    var g, t := Run(env, NewGateway(channel), es[..n]), Run(env, NewGateway(channel), es[..n + 1]);
    && g.Some? && t.Some? && |g.value.client.pcm| == i && t.value.client.pcm == g.value.client.pcm + [p]
    && Carries(es[n], p.ssrc) && Bound(es[..n], p.user, p.ssrc)
  }

  lemma PcmIsMapped(env: Foreign, c: Client, e: Event)
    ensures PcmFor(env, c, e) == []
         || exists p :: PcmFor(env, c, e) == [p] && Carries(e, p.ssrc) && Maps(c, p.user, p.ssrc)
  {
    if PcmFor(env, c, e) != [] {
      var p := PcmFor(env, c, e)[0];
      assert PcmFor(env, c, e) == [p] && Carries(e, p.ssrc) && Maps(c, p.user, p.ssrc);
    }
  }

  lemma PlayedBefore(env: Foreign, channel: nat, es: seq<Event>, n: nat, i: nat, p: Pcm)
    requires n < |es| - 1 && PlayedAt(env, channel, es[..|es| - 1], n, i, p)
    ensures PlayedAt(env, channel, es, n, i, p)
  {
    var before := es[..|es| - 1];
    assert before[..n] == es[..n] && before[..n + 1] == es[..n + 1];
  }

  lemma PlayedLast(env: Foreign, channel: nat, es: seq<Event>, p: Pcm)
    requires es != [] && Run(env, NewGateway(channel), es).Some?
    requires var g := Run(env, NewGateway(channel), es[..|es| - 1]).value;
      && Run(env, NewGateway(channel), es).value.client.pcm == g.client.pcm + [p]
      && Carries(es[|es| - 1], p.ssrc) && Maps(g.client, p.user, p.ssrc)
    ensures PlayedAt(env, channel, es, |es| - 1, |Run(env, NewGateway(channel), es[..|es| - 1]).value.client.pcm|, p)
  {
    MappedExactly(env, channel, es[..|es| - 1], p.user, p.ssrc);
    assert es[..|es|] == es;
  }

  /** Attribution: whatever is played for a user came out of a packet of its own, with an SSRC that a speaking event
      had bound to that user, with no disconnect of the user and no other claim on the SSRC in between. */
  lemma {:induction false} Attribution(env: Foreign, channel: nat, es: seq<Event>, i: nat, p: Pcm)
    requires Run(env, NewGateway(channel), es).Some?
    requires var t := Run(env, NewGateway(channel), es).value; i < |t.client.pcm| && t.client.pcm[i] == p
    ensures exists n :: 0 <= n < |es| && PlayedAt(env, channel, es, n, i, p)
  {
    var before := es[..|es| - 1];
    var g, t := Run(env, NewGateway(channel), before).value, Run(env, NewGateway(channel), es).value;
    StepPcm(env, g, es[|es| - 1]);
    PcmIsMapped(env, g.client, es[|es| - 1]);
    if i < |g.client.pcm| {
      Attribution(env, channel, before, i, p);
      var n :| 0 <= n < |before| && PlayedAt(env, channel, before, n, i, p);
      PlayedBefore(env, channel, es, n, i, p);
    } else {
      PlayedLast(env, channel, es, p);
    }
  }

  // ---- recognized users, heartbeat, sequence numbers ----

  predicate Introduces(e: Event, user: User) {
    e.TextMessage? && match e.text
      case Speaking(u, _) => u == user
      case Connect(users) => user in users
      case _ => false
  }

  predicate Leaves(e: Event, user: User) { e.TextMessage? && e.text == Disconnect(user) }

  /** A user was introduced by a connect or speaking event and did not leave since. */
  predicate Present(es: seq<Event>, user: User) {
    es != [] &&
    var e := es[|es| - 1];
    Introduces(e, user) || (!Leaves(e, user) && Present(es[..|es| - 1], user))
  }

  /** The users an event of the run introduced. */
  function Mentioned(es: seq<Event>): set<User> {
    if es == [] then {}
    else
      var before, e := Mentioned(es[..|es| - 1]), es[|es| - 1];
      if !e.TextMessage? then before
      else
        match e.text
        case Speaking(u, _) => before + {u}
        case Connect(users) => before + (set u | u in users)
        case _ => before
  }

  function PresentUsers(es: seq<Event>): set<User> { set u | u in Mentioned(es) && Present(es, u) }

  lemma {:induction false} PresentIsMentioned(es: seq<Event>, user: User)
    requires Present(es, user)
    ensures user in Mentioned(es)
  {
    if !Introduces(es[|es| - 1], user) {
      PresentIsMentioned(es[..|es| - 1], user);
    }
  }

  lemma RecognizedArePresent(env: Foreign, channel: nat, es: seq<Event>, t: Gateway)
    requires Reaches(env, channel, es, t)
    ensures t.client.mls.recognized == PresentUsers(es)
  {
    forall u ensures u in t.client.mls.recognized <==> u in PresentUsers(es) {
      RecognizedExactly(env, channel, es, t, u);
      if Present(es, u) {
        PresentIsMentioned(es, u);
      }
    }
  }

  predicate Greets(e: Event) { e.TextMessage? && e.text.Hello? }

  function LastSeq(es: seq<Event>): nat {
    if es == [] then 0
    else
      match es[|es| - 1]
      case TextMessage(Some(n), _, _) => n
      case BinaryMessage(data, _) => if |data| >= 3 then U16(data[..2]) else LastSeq(es[..|es| - 1])
      case _ => LastSeq(es[..|es| - 1])
  }

  lemma StepRecognizes(env: Foreign, g: Gateway, e: Event, user: User)
    requires Disciplined(g.client.mls) && Step(env, g, e).Some?
    ensures user in Step(env, g, e).value.client.mls.recognized <==>
      Introduces(e, user) || (!Leaves(e, user) && user in g.client.mls.recognized)
  {
    match e
    case TextMessage(_, text, _) =>
      match text {
        case Connect(_) =>
        case _ =>
      }
    case _ =>
  }

  lemma StepCounts(env: Foreign, g: Gateway, e: Event)
    requires Disciplined(g.client.mls) && Step(env, g, e).Some?
    ensures var t := Step(env, g, e).value;
      && t.heartbeats == (if Greets(e) && g.heartbeats == 0 then 1 else g.heartbeats)
      && t.lastSeq ==
        match e
        case TextMessage(Some(n), _, _) => n
        case BinaryMessage(data, _) => if |data| >= 3 then U16(data[..2]) else g.lastSeq
        case _ => g.lastSeq
  {
    match e
    case TextMessage(_, text, _) => match text { case _ => }
    case _ =>
  }

  /** The recognized users are exactly those present. */
  lemma {:induction false} RecognizedExactly(env: Foreign, channel: nat, es: seq<Event>, t: Gateway, user: User)
    requires Reaches(env, channel, es, t)
    ensures user in t.client.mls.recognized <==> Present(es, user)
  {
    if es == [] {
      ReachesStart(env, channel, t);
    } else {
      var g := ReachesLast(env, channel, es, t);
      RecognizedExactly(env, channel, es[..|es| - 1], g, user);
      StepRecognizes(env, g, es[|es| - 1], user);
    }
  }

  /** The heartbeat task is started by the first Hello and never again, and the sequence number to acknowledge is the
      last one received. */
  lemma {:induction false} HeartbeatOnce(env: Foreign, channel: nat, es: seq<Event>, t: Gateway)
    requires Reaches(env, channel, es, t)
    ensures t.heartbeats == if exists k :: 0 <= k < |es| && Greets(es[k]) then 1 else 0
    ensures t.lastSeq == LastSeq(es)
  {
    if es == [] {
      ReachesStart(env, channel, t);
    } else {
      var n := |es| - 1;
      var g := ReachesLast(env, channel, es, t);
      HeartbeatOnce(env, channel, es[..n], g);
      StepCounts(env, g, es[n]);
      assert forall k :: 0 <= k < n ==> es[..n][k] == es[k];
    }
  }
}
