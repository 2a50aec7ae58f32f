/**
 Speaker non-interference: what is played for an SSRC depends on its own packets and the control messages only.
 */
module Speakers {
  import opened Bytes
  import opened Wrappers
  import opened Mls
  import opened VoiceClients
  import opened VoiceGateways
  import opened Opcodes
  import opened VoiceRuns

  /** The run without the packets of other SSRCs. */
  function Kept(es: seq<Event>, ssrc: Ssrc): seq<Event> {
    if es == [] then []
    else
      var e := es[|es| - 1];
      Kept(es[..|es| - 1], ssrc) + if e.Packet? && !Carries(e, ssrc) then [] else [e]
  }

  function PcmOf(pcm: seq<Pcm>, ssrc: Ssrc): seq<Pcm> {
    if pcm == [] then []
    else PcmOf(pcm[..|pcm| - 1], ssrc) + if pcm[|pcm| - 1].ssrc == ssrc then [pcm[|pcm| - 1]] else []
  }

  lemma PcmOfSnoc(pcm: seq<Pcm>, p: Pcm, ssrc: Ssrc)
    ensures PcmOf(pcm + [p], ssrc) == PcmOf(pcm, ssrc) + if p.ssrc == ssrc then [p] else []
  {
    assert (pcm + [p])[..|pcm|] == pcm;
  }

  /** The managers agree on everything but the decryptors of other SSRCs. */
  predicate AlikeMls(m: MlsState, n: MlsState, ssrc: Ssrc) {
    && m.(decryptors := map[]) == n.(decryptors := map[])
    && (ssrc in m.decryptors <==> ssrc in n.decryptors)
    && Existing(m.decryptors, ssrc) == Existing(n.decryptors, ssrc)
  }

  predicate Alike(c: Client, d: Client, ssrc: Ssrc) {
    && AlikeMls(c.mls, d.mls, ssrc)
    && c.transport == d.transport && c.users == d.users && c.daveVersion == d.daveVersion
    && OpusLog(c.opus, ssrc) == OpusLog(d.opus, ssrc)
    && PcmOf(c.pcm, ssrc) == PcmOf(d.pcm, ssrc)
  }

  predicate AlikeGateways(g: Gateway, h: Gateway, ssrc: Ssrc) {
    && Alike(g.client, h.client, ssrc)
    && g.phase == h.phase && g.lastSeq == h.lastSeq && g.heartbeats == h.heartbeats && g.sent == h.sent
  }

  lemma RefreshedAlike(c: Client, d: Client, ssrc: Ssrc)
    requires Alike(c, d, ssrc)
    ensures Alike(Refreshed(c), Refreshed(d), ssrc)
  {}

  lemma DisconnectedAlike(c: Client, d: Client, user: User, ssrc: Ssrc)
    requires Alike(c, d, ssrc)
    ensures Alike(Disconnected(c, user), Disconnected(d, user), ssrc)
  {}

  /** What `_on_speaking` and `_on_clients_connect` change before they refresh. */
  lemma RecognizedAlike(c: Client, d: Client, recognized: set<User>, users: map<Ssrc, User>, ssrc: Ssrc)
    requires Alike(c, d, ssrc)
    ensures Alike(Refreshed(c.(mls := c.mls.(recognized := recognized), users := users)),
                  Refreshed(d.(mls := d.mls.(recognized := recognized), users := users)), ssrc)
  {
    RefreshedAlike(c.(mls := c.mls.(recognized := recognized), users := users),
                   d.(mls := d.mls.(recognized := recognized), users := users), ssrc);
  }

  lemma PassthroughAlike(c: Client, d: Client, ssrc: Ssrc)
    requires Alike(c, d, ssrc)
    ensures Alike(PreparedPassthrough(c), PreparedPassthrough(d), ssrc)
  {}

  lemma VersionsAlike(m: MlsState, n: MlsState, version: nat, ssrc: Ssrc)
    requires Disciplined(m) && Disciplined(n) && AlikeMls(m, n, ssrc)
    ensures AlikeMls(WithVersion(m, version), WithVersion(n, version), ssrc)
    ensures AlikeMls(WithGroup(m, version), WithGroup(n, version), ssrc)
  {}

  lemma PostedAlike(g: Gateway, h: Gateway, frame: WireFrame, ok: bool, ssrc: Ssrc)
    requires AlikeGateways(g, h, ssrc)
    ensures AlikeGateways(Posted(g, frame, ok), Posted(h, frame, ok), ssrc)
  {}

  lemma DescribedAlike(g: Gateway, h: Gateway, dave: nat, key: Option<Key>, a: Answer, ssrc: Ssrc)
    requires Disciplined(g.client.mls) && Disciplined(h.client.mls) && AlikeGateways(g, h, ssrc)
    ensures AlikeGateways(OnText(g, SessionDescription(dave, key), a),
                          OnText(h, SessionDescription(dave, key), a), ssrc)
  {
    VersionsAlike(g.client.mls, h.client.mls, if dave != 0 then dave else 1, ssrc);
    var c, d := Described(g.client, dave, key), Described(h.client, dave, key);
    if key.Some? && dave >= 1 {
      VersionsAlike(c.mls, d.mls, dave, ssrc);
      PostedAlike(g.(client := c.(mls := WithGroup(c.mls, dave))), h.(client := d.(mls := WithGroup(d.mls, dave))),
                  Encoded(KeyPackageReply(a).value), a.sendOk, ssrc);
    }
  }

  lemma TextAlike(g: Gateway, h: Gateway, text: Text, a: Answer, ssrc: Ssrc)
    requires Disciplined(g.client.mls) && Disciplined(h.client.mls) && AlikeGateways(g, h, ssrc)
    ensures AlikeGateways(OnText(g, text, a), OnText(h, text, a), ssrc)
  {
    var c, d := g.client, h.client;
    match text
    case Speaking(user, s) =>
      RecognizedAlike(c, d, c.mls.recognized + {user}, c.users[s := user], ssrc);
    case Connect(users) => RecognizedAlike(c, d, c.mls.recognized + (set u | u in users), c.users, ssrc);
    case Execute => RefreshedAlike(c, d, ssrc);
    case Disconnect(user) => DisconnectedAlike(c, d, user, ssrc);
    case SessionDescription(dave, key) => DescribedAlike(g, h, dave, key, a, ssrc);
    case Epoch(version, _) => VersionsAlike(c.mls, d.mls, version, ssrc);
    case PrepareTransition(_, _) => PassthroughAlike(c, d, ssrc);
    case _ =>
  }

  lemma AdvanceAlike(g: Gateway, h: Gateway, payload: seq<Byte>, a: Answer, welcome: bool, ssrc: Ssrc)
    requires AlikeGateways(g, h, ssrc)
    ensures AlikeGateways(Advance(g, payload, a, welcome), Advance(h, payload, a, welcome), ssrc)
  {}

  lemma ProposalsAlike(g: Gateway, h: Gateway, payload: seq<Byte>, a: Answer, ssrc: Ssrc)
    requires AlikeGateways(g, h, ssrc)
    ensures AlikeGateways(OnProposals(g, payload, a), OnProposals(h, payload, a), ssrc)
  {}

  lemma AskAlike(m: MlsState, n: MlsState, call: Call, ssrc: Ssrc)
    requires AlikeMls(m, n, ssrc)
    ensures AlikeMls(Ask(m, call), Ask(n, call), ssrc)
  {}

  lemma BinaryAlike(g: Gateway, h: Gateway, data: seq<Byte>, a: Answer, ssrc: Ssrc)
    requires AlikeGateways(g, h, ssrc)
    ensures AlikeGateways(OnBinary(g, data, a), OnBinary(h, data, a), ssrc)
  {
    if |data| >= 3 {
      var f := DecodeBinary(data).value;
      if f.opcode == PROPOSALS {
        ProposalsAlike(g.(lastSeq := f.seqNo), h.(lastSeq := f.seqNo), f.payload, a, ssrc);
      } else if f.opcode == EXTERNAL_SENDER {
        AskAlike(g.client.mls, h.client.mls, SenderCall(f.payload), ssrc);
      } else {
        AdvanceAlike(g.(lastSeq := f.seqNo), h.(lastSeq := f.seqNo), f.payload, a, f.opcode == WELCOME, ssrc);
      }
    }
  }

  /** A packet of the SSRC does the same in both runs. */
  lemma OwnPacketAlike(env: Foreign, c: Client, d: Client, data: seq<Byte>, ssrc: Ssrc)
    requires Alike(c, d, ssrc) && Carries(Packet(data), ssrc)
    ensures Alike(Handled(env, c, data), Handled(env, d, data), ssrc)
  {
    assert TransportFrame(env, c, data) == TransportFrame(env, d, data);
    match TransportFrame(env, c, data)
    case None =>
    case Some((_, frame)) => PlayedAlike(env, c, d, frame, ssrc);
  }

  lemma HeardAlike(c: Client, d: Client, frame: seq<Byte>, ssrc: Ssrc)
    requires Alike(c, d, ssrc)
    ensures Alike(Heard(c, ssrc, frame), Heard(d, ssrc, frame), ssrc)
  {}

  lemma DecodedAlike(env: Foreign, c: Client, d: Client, bytes: seq<Byte>, ssrc: Ssrc)
    requires Alike(c, d, ssrc) && ssrc in c.users
    ensures Alike(Decoded(env, c, ssrc, bytes), Decoded(env, d, ssrc, bytes), ssrc)
  {
    var pcm := env.decode(OpusLog(c.opus, ssrc), bytes);
    if pcm.Some? {
      PcmOfSnoc(c.pcm, Pcm(ssrc, c.users[ssrc], pcm.value), ssrc);
      PcmOfSnoc(d.pcm, Pcm(ssrc, c.users[ssrc], pcm.value), ssrc);
    }
  }

  lemma PlayedAlike(env: Foreign, c: Client, d: Client, frame: seq<Byte>, ssrc: Ssrc)
    requires Alike(c, d, ssrc) && ssrc in c.users
    ensures Alike(Played(env, c, ssrc, frame), Played(env, d, ssrc, frame), ssrc)
  {
    HeardAlike(c, d, frame, ssrc);
    var plain := env.decrypt(Existing(c.mls.decryptors, ssrc).log, frame);
    if plain.Some? {
      DecodedAlike(env, Heard(c, ssrc, frame), Heard(d, ssrc, frame), plain.value, ssrc);
    }
  }

  lemma DecodedOther(env: Foreign, c: Client, other: Ssrc, bytes: seq<Byte>, ssrc: Ssrc)
    requires other in c.users && other != ssrc
    ensures Alike(Decoded(env, c, other, bytes), c, ssrc)
  {
    var pcm := env.decode(OpusLog(c.opus, other), bytes);
    if pcm.Some? {
      PcmOfSnoc(c.pcm, Pcm(other, c.users[other], pcm.value), ssrc);
    }
  }

  /** A packet of another SSRC changes nothing this one depends on. */
  lemma OtherPacket(env: Foreign, c: Client, data: seq<Byte>, ssrc: Ssrc)
    requires !Carries(Packet(data), ssrc)
    ensures Alike(Handled(env, c, data), c, ssrc)
  {
    match TransportFrame(env, c, data)
    case None =>
    case Some((other, frame)) =>
      var plain := env.decrypt(Existing(c.mls.decryptors, other).log, frame);
      if plain.Some? {
        DecodedOther(env, Heard(c, other, frame), other, plain.value, ssrc);
      }
  }

  lemma StepAlike(env: Foreign, g: Gateway, h: Gateway, e: Event, ssrc: Ssrc)
    requires Disciplined(g.client.mls) && Disciplined(h.client.mls) && AlikeGateways(g, h, ssrc)
    requires e.Packet? ==> Carries(e, ssrc)
    ensures Step(env, g, e).Some? <==> Step(env, h, e).Some?
    ensures Step(env, g, e).Some? ==> AlikeGateways(Step(env, g, e).value, Step(env, h, e).value, ssrc)
  {
    match e
    case TextMessage(seqNo, text, a) =>
      TextAlike(Sequenced(g, seqNo), Sequenced(h, seqNo), text, a, ssrc);
    case BinaryMessage(data, a) => BinaryAlike(g, h, data, a, ssrc);
    case Resume => RefreshedAlike(g.client, h.client, ssrc);
    case Packet(data) => OwnPacketAlike(env, g.client, h.client, data, ssrc);
    case Close =>
  }

  /** Without the packets of other SSRCs the run is still possible, and what it ends in is alike. */
  ghost predicate KeptLike(env: Foreign, channel: nat, es: seq<Event>, t: Gateway, ssrc: Ssrc) {
    exists u :: Reaches(env, channel, Kept(es, ssrc), u) && AlikeGateways(t, u, ssrc)
  }

  lemma {:induction false} KeptAlike(env: Foreign, channel: nat, es: seq<Event>, t: Gateway, ssrc: Ssrc)
    requires Reaches(env, channel, es, t)
    ensures KeptLike(env, channel, es, t, ssrc)
  {
    if es == [] {
      ReachesStart(env, channel, t);
      assert Reaches(env, channel, Kept(es, ssrc), t);
    } else {
      var n := |es| - 1;
      var g := ReachesLast(env, channel, es, t);
      KeptAlike(env, channel, es[..n], g, ssrc);
      var h :| Reaches(env, channel, Kept(es[..n], ssrc), h) && AlikeGateways(g, h, ssrc);
      if es[n].Packet? && !Carries(es[n], ssrc) {
        OtherPacket(env, g.client, es[n].data, ssrc);
        assert Kept(es, ssrc) == Kept(es[..n], ssrc);
      } else {
        ReachesDisciplined(env, channel, Kept(es[..n], ssrc), h);
        StepAlike(env, g, h, es[n], ssrc);
        ReachesMore(env, channel, Kept(es[..n], ssrc), h, es[n], Step(env, h, es[n]).value);
      }
    }
  }

  /** Deleting every packet of other SSRCs leaves the run possible, its replies unchanged, and the sound of this SSRC
      exactly as it was. */
  lemma NonInterference(env: Foreign, channel: nat, es: seq<Event>, t: Gateway, ssrc: Ssrc)
    requires Reaches(env, channel, es, t)
    ensures exists u ::
      && Reaches(env, channel, Kept(es, ssrc), u) && u.sent == t.sent
      && PcmOf(u.client.pcm, ssrc) == PcmOf(t.client.pcm, ssrc)
  {
    KeptAlike(env, channel, es, t, ssrc);
    var u :| Reaches(env, channel, Kept(es, ssrc), u) && AlikeGateways(t, u, ssrc);
    assert u.sent == t.sent;
  }
}
