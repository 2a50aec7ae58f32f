/**
 The receive path from end to end. What the client keeps and what it plays, read off the messages and packets of a run
 alone; foreign code is called only where `env` stands.
 */
module Playback {
  import opened Bytes
  import opened Wrappers
  import opened Mls
  import opened VoiceClients
  import opened VoiceGateways
  import opened VoiceRuns
  import opened Handshake
  import opened Ratchets
  import Framing
  import Rtp

  /** The key of the last op 4 that had a usable one. */
  function KeyOf(es: seq<Event>): Option<Key> {
    if es == [] then None
    else
      match es[|es| - 1]
      case TextMessage(_, SessionDescription(_, Some(key)), _) => Some(key)
      case _ => KeyOf(es[..|es| - 1])
  }

  /** Whose SSRC it is: the last who spoke with it, unless disconnected since. */
  function UserOf(es: seq<Event>, ssrc: Ssrc): Option<User> {
    if es == [] then None
    else
      var before := UserOf(es[..|es| - 1], ssrc);
      match es[|es| - 1]
      case TextMessage(_, Speaking(user, s), _) => if s == ssrc then Some(user) else before
      case TextMessage(_, Disconnect(user), _) => if before == Some(user) then None else before
      case _ => before
  }

  /** Whether an event takes the SSRC away. */
  predicate Frees(e: Event, user: Option<User>) {
    e.TextMessage? && e.text.Disconnect? && user == Some(e.text.user)
  }

  /** The frame that a packet brings for an SSRC that belongs to someone. */
  function Arrival(env: Foreign, key: Option<Key>, user: Option<User>, e: Event, ssrc: Ssrc): Option<seq<Byte>> {
    if !e.Packet? || user.None? then None
    else
      match FrameOf(env, key, e.data)
      case None => None
      case Some((s, frame)) => if s == ssrc then Some(frame) else None
  }

  /** What an event does to the decryptor of an SSRC that is `user`'s after it. */
  function Does(env: Foreign, key: Option<Key>, version: nat, exported: map<User, Ratchet>, user: Option<User>,
                e: Event, ssrc: Ssrc): Option<DecOp>
  {
    if Refreshes(e) && version >= 1 && user.Some? && user.value in exported then Some(ToRatchet(exported[user.value]))
    else
      match Arrival(env, key, user, e, ssrc)
      case Some(frame) => Some(Frame(frame))
      case None => None
  }

  function Extend(past: Option<seq<DecOp>>, op: Option<DecOp>): Option<seq<DecOp>> {
    if op.None? then past else Some(OrNone(past) + [op.value])
  }

  /** All that was done to the decryptor of an SSRC, if there is one. */
  function PastOf(env: Foreign, es: seq<Event>, ssrc: Ssrc): Option<seq<DecOp>> {
    if es == [] then None
    else
      var n := |es| - 1;
      var before, e := PastOf(env, es[..n], ssrc), es[n];
      if Frees(e, UserOf(es[..n], ssrc)) then None
      else if Downgrades(e) then if before.None? then None else Extend(before, Some(ToPassthrough))
      else Extend(before, Does(env, KeyOf(es[..n]), DaveVersion(es[..n]), Exported(es[..n]), UserOf(es, ssrc), e, ssrc))
  }

  /** All that the Opus decoder of an SSRC decoded. */
  function DecodedOf(env: Foreign, es: seq<Event>, ssrc: Ssrc): seq<seq<Byte>> {
    if es == [] then []
    else
      var n := |es| - 1;
      var before, e := DecodedOf(env, es[..n], ssrc), es[n];
      if Frees(e, UserOf(es[..n], ssrc)) then []
      else
        match Arrival(env, KeyOf(es[..n]), UserOf(es[..n], ssrc), e, ssrc)
        case None => before
        case Some(frame) =>
          match Yield(env.decrypt(OrNone(PastOf(env, es[..n], ssrc)), frame))
          case None => before
          case Some(plain) => before + [plain]
  }

  /** All calls of `on_pcm`, in order. */
  function Sounds(env: Foreign, es: seq<Event>): seq<Pcm> {
    if es == [] then []
    else
      var n := |es| - 1;
      var before, e := es[..n], es[n];
      Sounds(env, before) +
        if !e.Packet? then []
        else
          match FrameOf(env, KeyOf(before), e.data)
          case None => []
          case Some((ssrc, frame)) =>
            match (UserOf(before, ssrc),
                   SoundOf(env, OrNone(PastOf(env, before, ssrc)), DecodedOf(env, before, ssrc), frame))
            case (Some(user), Some(sound)) => [Pcm(ssrc, user, sound)]
            case _ => []
  }

  // ---- the transport key ----

  lemma StepKey(env: Foreign, g: Gateway, e: Event)
    requires Disciplined(g.client.mls) && Step(env, g, e).Some?
    ensures Step(env, g, e).value.client.transport ==
      match e
      case TextMessage(_, SessionDescription(_, Some(key)), _) => Some(key)
      case _ => g.client.transport
  {
    match e
    case TextMessage(_, text, _) => match text { case _ => }
    case _ =>
  }

  lemma {:induction false} KeyTold(env: Foreign, channel: nat, es: seq<Event>, t: Gateway)
    requires Reaches(env, channel, es, t)
    ensures t.client.transport == KeyOf(es)
  {
    if es == [] {
      ReachesStart(env, channel, t);
    } else {
      var g := ReachesLast(env, channel, es, t);
      KeyTold(env, channel, es[..|es| - 1], g);
      StepKey(env, g, es[|es| - 1]);
    }
  }

  // ---- who has an SSRC ----

  lemma StepUser(env: Foreign, g: Gateway, e: Event, ssrc: Ssrc)
    requires Disciplined(g.client.mls) && Step(env, g, e).Some?
    ensures var before := UserAt(g.client.users, ssrc);
      UserAt(Step(env, g, e).value.client.users, ssrc) ==
      match e
      case TextMessage(_, Speaking(user, s), _) => if s == ssrc then Some(user) else before
      case TextMessage(_, Disconnect(user), _) => if before == Some(user) then None else before
      case _ => before
  {
    match e
    case TextMessage(_, text, _) =>
      match text {
        case Speaking(_, _) =>
        case Disconnect(_) =>
        case _ =>
      }
    case _ =>
  }

  lemma {:induction false} UserTold(env: Foreign, channel: nat, es: seq<Event>, t: Gateway, ssrc: Ssrc)
    requires Reaches(env, channel, es, t)
    ensures UserAt(t.client.users, ssrc) == UserOf(es, ssrc)
  {
    if es == [] {
      ReachesStart(env, channel, t);
    } else {
      var g := ReachesLast(env, channel, es, t);
      UserTold(env, channel, es[..|es| - 1], g, ssrc);
      StepUser(env, g, es[|es| - 1], ssrc);
    }
  }

  // ---- decryptors ----

  /** What a step makes of a decryptor. */
  function LogAfter(env: Foreign, g: Gateway, t: Gateway, e: Event, ssrc: Ssrc): Option<seq<DecOp>> {
    var c, before := g.client, LogAt(g.client.mls.decryptors, ssrc);
    if Frees(e, UserAt(c.users, ssrc)) then None
    else if Downgrades(e) then if before.None? then None else Extend(before, Some(ToPassthrough))
    else
      Extend(before,
             Does(env, c.transport, c.daveVersion, c.mls.session.ratchets, UserAt(t.client.users, ssrc), e, ssrc))
  }

  lemma StepLog(env: Foreign, g: Gateway, e: Event, ssrc: Ssrc)
    requires Disciplined(g.client.mls) && Step(env, g, e).Some?
    ensures var t := Step(env, g, e).value;
      LogAt(t.client.mls.decryptors, ssrc) == LogAfter(env, g, t, e, ssrc)
  {
    match e
    case TextMessage(seqNo, text, a) => TextLog(env, g, seqNo, text, a, ssrc);
    case BinaryMessage(_, _) =>
    case Resume => RefreshedLog(g.client, ssrc);
    case Packet(data) => PacketLog(env, g.client, data, ssrc);
    case Close =>
  }

  lemma TextLog(env: Foreign, g: Gateway, seqNo: Option<nat>, text: Text, a: Answer, ssrc: Ssrc)
    requires Disciplined(g.client.mls)
    ensures var t := OnText(Sequenced(g, seqNo), text, a);
      LogAt(t.client.mls.decryptors, ssrc) == LogAfter(env, g, t, TextMessage(seqNo, text, a), ssrc)
  {
    var c := g.client;
    match text
    case Speaking(user, s) =>
      var m := c.mls.(recognized := c.mls.recognized + {user});
      RefreshedLog(c.(mls := m, users := c.users[s := user]), ssrc);
    case Connect(users) =>
      RefreshedLog(c.(mls := c.mls.(recognized := c.mls.recognized + (set u | u in users))), ssrc);
    case Execute => RefreshedLog(c, ssrc);
    case _ => OtherLog(env, g, seqNo, text, a, ssrc);
  }

  lemma OtherLog(env: Foreign, g: Gateway, seqNo: Option<nat>, text: Text, a: Answer, ssrc: Ssrc)
    requires Disciplined(g.client.mls) && !text.Speaking? && !text.Connect? && !text.Execute?
    ensures var t := OnText(Sequenced(g, seqNo), text, a);
      LogAt(t.client.mls.decryptors, ssrc) == LogAfter(env, g, t, TextMessage(seqNo, text, a), ssrc)
  {
    match text
    case Disconnect(_) =>
    case PrepareTransition(_, _) =>
    case _ =>
  }

  lemma RefreshedLog(c: Client, ssrc: Ssrc)
    ensures LogAt(Refreshed(c).mls.decryptors, ssrc) ==
      var before, ratchets := LogAt(c.mls.decryptors, ssrc), c.mls.session.ratchets;
      if c.daveVersion >= 1 && ssrc in c.users && c.users[ssrc] in ratchets
      then Some(OrNone(before) + [ToRatchet(ratchets[c.users[ssrc]])]) else before
  {}

  lemma PacketLog(env: Foreign, c: Client, data: seq<Byte>, ssrc: Ssrc)
    ensures LogAt(Handled(env, c, data).mls.decryptors, ssrc) ==
      var before := LogAt(c.mls.decryptors, ssrc);
      match Arrival(env, c.transport, UserAt(c.users, ssrc), Packet(data), ssrc)
      case None => before
      case Some(frame) => Some(OrNone(before) + [Frame(frame)])
  {
    FrameOfMapped(env, c, data);
  }

  lemma {:induction false} PastTold(env: Foreign, channel: nat, es: seq<Event>, t: Gateway, ssrc: Ssrc)
    requires Reaches(env, channel, es, t)
    ensures LogAt(t.client.mls.decryptors, ssrc) == PastOf(env, es, ssrc)
  {
    if es == [] {
      ReachesStart(env, channel, t);
    } else {
      var n := |es| - 1;
      var g := ReachesLast(env, channel, es, t);
      PastTold(env, channel, es[..n], g, ssrc);
      KeyTold(env, channel, es[..n], g);
      UserTold(env, channel, es[..n], g, ssrc);
      UserTold(env, channel, es, t, ssrc);
      VersionRead(env, channel, es[..n], g);
      SessionFollows(env, channel, es[..n], g);
      StepLog(env, g, es[n], ssrc);
    }
  }

  // ---- Opus decoders ----

  lemma StepDecoded(env: Foreign, g: Gateway, e: Event, ssrc: Ssrc)
    requires Disciplined(g.client.mls) && Step(env, g, e).Some?
    ensures var c, before := g.client, OpusLog(g.client.opus, ssrc);
      OpusLog(Step(env, g, e).value.client.opus, ssrc) ==
      if Frees(e, UserAt(c.users, ssrc)) then []
      else
        match Arrival(env, c.transport, UserAt(c.users, ssrc), e, ssrc)
        case None => before
        case Some(frame) =>
          match Yield(env.decrypt(OrNone(LogAt(c.mls.decryptors, ssrc)), frame))
          case None => before
          case Some(plain) => before + [plain]
  {
    match e
    case TextMessage(_, text, _) => match text { case Disconnect(_) => case _ => }
    case Packet(data) => FrameOfMapped(env, g.client, data);
    case _ =>
  }

  lemma {:induction false} DecodedTold(env: Foreign, channel: nat, es: seq<Event>, t: Gateway, ssrc: Ssrc)
    requires Reaches(env, channel, es, t)
    ensures OpusLog(t.client.opus, ssrc) == DecodedOf(env, es, ssrc)
  {
    if es == [] {
      ReachesStart(env, channel, t);
    } else {
      var n := |es| - 1;
      var g := ReachesLast(env, channel, es, t);
      DecodedTold(env, channel, es[..n], g, ssrc);
      KeyTold(env, channel, es[..n], g);
      UserTold(env, channel, es[..n], g, ssrc);
      PastTold(env, channel, es[..n], g, ssrc);
      StepDecoded(env, g, es[n], ssrc);
    }
  }

  // ---- sound ----

  /** All that is ever played, and nothing else, over every run: for each packet whose frame the last usable key opens
      and whose SSRC belongs to someone, what the Opus decoder makes of what the decryptor makes of the frame, if both
      yield anything; in order, for the user the SSRC belonged to. */
  lemma {:induction false} PlaysExactly(env: Foreign, channel: nat, es: seq<Event>, t: Gateway)
    requires Reaches(env, channel, es, t)
    ensures t.client.pcm == Sounds(env, es)
  {
    if es == [] {
      ReachesStart(env, channel, t);
    } else {
      var n := |es| - 1;
      var g := ReachesLast(env, channel, es, t);
      PlaysExactly(env, channel, es[..n], g);
      StepPcm(env, g, es[n]);
      KeyTold(env, channel, es[..n], g);
      if es[n].Packet? && FrameOf(env, KeyOf(es[..n]), es[n].data).Some? {
        var ssrc := FrameOf(env, KeyOf(es[..n]), es[n].data).value.0;
        UserTold(env, channel, es[..n], g, ssrc);
        PastTold(env, channel, es[..n], g, ssrc);
        DecodedTold(env, channel, es[..n], g, ssrc);
      }
    }
  }

  /** A packet as RFC 3550 lays it out, sealed under the current key, is played for the user of its SSRC: exactly what
      the Opus decoder makes of what the decryptor makes of the frame that was sent, if both yield anything. */
  lemma SentIsPlayed(env: Foreign, channel: nat, es: seq<Event>, t: Gateway, p: Framing.Sent,
                     seal: (seq<Byte>, seq<Byte>, seq<Byte>) -> seq<Byte>)
    requires Framing.WellFormed(p)
    requires Reaches(env, channel, es + [Packet(Framing.SealedDatagram(seal, p))], t)
    requires KeyOf(es).Some? && Framing.Inverts(seal, (a, t, n) => env.open(KeyOf(es).value, a, t, n))
    requires UserOf(es, p.ssrc).Some?
    ensures t.client.pcm == Sounds(env, es) +
      match Yield(env.decrypt(OrNone(PastOf(env, es, p.ssrc)), p.frame))
      case None => []
      case Some(plain) =>
        match Yield(env.decode(DecodedOf(env, es, p.ssrc), plain))
        case None => []
        case Some(sound) => [Pcm(p.ssrc, UserOf(es, p.ssrc).value, sound)]
  {
    var data, open := Framing.SealedDatagram(seal, p), (a, t, n) => env.open(KeyOf(es).value, a, t, n);
    var all := es + [Packet(data)];
    assert all[..|es|] == es && all[|all| - 1] == Packet(data);
    PlaysExactly(env, channel, all, t);
    Framing.ReceiveSent(seal, open, p);
    Framing.SealedHeader(seal, p);
    assert Framing.Receive(open, data) == Some(p.frame);
    assert FrameOf(env, KeyOf(es), data) == Some((p.ssrc, p.frame));
  }
}
