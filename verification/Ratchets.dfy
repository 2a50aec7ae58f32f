/**
 Which key ratchets the decryptors hold: the current ones while no refresh is due, which in a DAVE call is between
 dispatches and after a loop that ended in good order; and those of the right user, as long as no SSRC is taken over.
 */
module Ratchets {
  import opened Bytes
  import opened Wrappers
  import opened Mls
  import opened VoiceClients
  import opened VoiceGateways
  import opened VoiceRuns
  import opened Handshake
  import Opcodes
  import Framing

  /** Every mapped SSRC whose user has a ratchet in the session has a decryptor holding exactly that ratchet. */
  predicate Current(c: Client) {
    forall ssrc :: ssrc in c.users && c.users[ssrc] in c.mls.session.ratchets ==>
      ssrc in c.mls.decryptors && c.mls.decryptors[ssrc].ratchet == Some(c.mls.session.ratchets[c.users[ssrc]])
  }

  predicate Fresh(g: Gateway) { g.phase == Idle && g.client.daveVersion >= 1 ==> Current(g.client) }

  lemma HandledCurrent(env: Foreign, c: Client, data: seq<Byte>)
    requires Current(c)
    ensures Current(Handled(env, c, data))
  {}

  lemma PassthroughCurrent(c: Client)
    requires Current(c)
    ensures Current(PreparedPassthrough(c))
  {}

  lemma TextFresh(g: Gateway, text: Text, a: Answer)
    requires Disciplined(g.client.mls) && g.phase == Idle && Fresh(g)
    ensures Fresh(OnText(g, text, a))
  {
    match text
    case PrepareTransition(_, _) =>
      if g.client.daveVersion >= 1 {
        PassthroughCurrent(g.client);
      }
    case Disconnect(_) =>
    case Epoch(_, _) =>
    case _ =>
  }

  lemma StepFresh(env: Foreign, g: Gateway, e: Event)
    requires Disciplined(g.client.mls) && Step(env, g, e).Some? && Fresh(g)
    ensures Fresh(Step(env, g, e).value)
  {
    match e
    case TextMessage(seqNo, text, a) => TextFresh(Sequenced(g, seqNo), text, a);
    case Packet(data) =>
      if g.phase == Idle && g.client.daveVersion >= 1 {
        HandledCurrent(env, g.client, data);
      }
    case _ =>
  }

  lemma {:induction false} RunFresh(env: Foreign, g: Gateway, es: seq<Event>)
    requires Disciplined(g.client.mls) && Run(env, g, es).Some? && Fresh(g)
    ensures Fresh(Run(env, g, es).value)
  {
    if es != [] {
      RunFresh(env, g, es[..|es| - 1]);
      StepFresh(env, Run(env, g, es[..|es| - 1]).value, es[|es| - 1]);
    }
  }

  // ---- when a refresh is due ----

  /** A commit or welcome that the session accepts. */
  predicate Accepts(e: Event) { Decides(e) && e.answer.outcome.Advanced? }

  /** What is followed by `refresh_ratchets` in a DAVE call. */
  predicate Refreshes(e: Event) {
    e.Resume? || (e.TextMessage? && (e.text.Speaking? || e.text.Execute? || e.text.Connect?))
  }

  predicate Describes(e: Event) { e.TextMessage? && e.text.SessionDescription? }

  /** `dave_version`, as the messages so far left it. */
  function DaveVersion(es: seq<Event>): nat {
    if es == [] then 0
    else if Describes(es[|es| - 1]) then es[|es| - 1].text.dave
    else DaveVersion(es[..|es| - 1])
  }

  /** An accepted commit or welcome makes a refresh due, and so does a speaking event without DAVE; a refresh in a DAVE
      call does it, and a new group needs none. */
  predicate DueAfter(due: bool, version: nat, e: Event) {
    if Accepts(e) then true
    else if Announces(e) || (Refreshes(e) && version >= 1) then false
    else due || (e.TextMessage? && e.text.Speaking?)
  }

  /** Whether a refresh is due, read off the messages alone. */
  predicate Due(es: seq<Event>) {
    es != [] && DueAfter(Due(es[..|es| - 1]), DaveVersion(es[..|es| - 1]), es[|es| - 1])
  }

  lemma {:induction false} VersionRead(env: Foreign, channel: nat, es: seq<Event>, t: Gateway)
    requires Reaches(env, channel, es, t)
    ensures t.client.daveVersion == DaveVersion(es)
  {
    if es == [] {
      ReachesStart(env, channel, t);
    } else {
      var g := ReachesLast(env, channel, es, t);
      VersionRead(env, channel, es[..|es| - 1], g);
      if !Describes(es[|es| - 1]) {
        StepVersion(env, g, es[|es| - 1]);
      }
    }
  }

  lemma RefreshedCurrent(c: Client)
    requires c.daveVersion >= 1
    ensures Current(Refreshed(c))
  {}

  lemma TextCurrent(g: Gateway, seqNo: Option<nat>, text: Text, a: Answer, due: bool)
    requires Disciplined(g.client.mls) && (due || Current(g.client))
    ensures DueAfter(due, g.client.daveVersion, TextMessage(seqNo, text, a)) || Current(OnText(g, text, a).client)
  {
    match text
    case PrepareTransition(_, _) =>
      if !due {
        PassthroughCurrent(g.client);
      }
    case SessionDescription(_, _) =>
    case Disconnect(_) =>
    case Epoch(_, _) =>
    case _ => CallsCurrent(g, seqNo, text, a, due);
  }

  lemma CallsCurrent(g: Gateway, seqNo: Option<nat>, text: Text, a: Answer, due: bool)
    requires Disciplined(g.client.mls) && (due || Current(g.client))
    requires !text.PrepareTransition? && !text.SessionDescription? && !text.Disconnect? && !text.Epoch?
    ensures DueAfter(due, g.client.daveVersion, TextMessage(seqNo, text, a)) || Current(OnText(g, text, a).client)
  {}

  lemma BinaryCurrent(g: Gateway, data: seq<Byte>, a: Answer, due: bool)
    requires due || Current(g.client)
    ensures DueAfter(due, g.client.daveVersion, BinaryMessage(data, a)) || Current(OnBinary(g, data, a).client)
  {
    if !Accepts(BinaryMessage(data, a)) {
      RatchetsStay(g, data, a);
    }
  }

  lemma RatchetsStay(g: Gateway, data: seq<Byte>, a: Answer)
    requires !Accepts(BinaryMessage(data, a))
    ensures OnBinary(g, data, a).client.mls.session.ratchets == g.client.mls.session.ratchets
  {
    BinaryAccepted(g, data, a);
  }

  /** A commit or welcome that is accepted, and no other binary message, brings its ratchets. */
  lemma BinaryAccepted(g: Gateway, data: seq<Byte>, a: Answer)
    ensures OnBinary(g, data, a).client.mls.session.ratchets ==
      if Accepts(BinaryMessage(data, a)) then a.outcome.ratchets else g.client.mls.session.ratchets
  {
    if |data| >= 3 {
      var f := Opcodes.DecodeBinary(data).value;
      if f.opcode in {Opcodes.ANNOUNCE_COMMIT, Opcodes.WELCOME} {
        AdvanceSession(g.(lastSeq := f.seqNo), f.payload, a, f.opcode == Opcodes.WELCOME);
      }
    }
  }

  lemma StepCurrent(env: Foreign, g: Gateway, e: Event, due: bool)
    requires Disciplined(g.client.mls) && Step(env, g, e).Some? && (due || Current(g.client))
    ensures DueAfter(due, g.client.daveVersion, e) || Current(Step(env, g, e).value.client)
  {
    match e
    case TextMessage(seqNo, text, a) => TextCurrent(Sequenced(g, seqNo), seqNo, text, a, due);
    case BinaryMessage(data, a) => BinaryCurrent(g, data, a, due);
    case Resume =>
      if g.client.daveVersion >= 1 {
        RefreshedCurrent(g.client);
      }
    case Packet(data) =>
      if !due {
        HandledCurrent(env, g.client, data);
      }
    case Close =>
  }

  /** Between dispatches of a DAVE call no refresh is due. */
  lemma StepIdle(env: Foreign, g: Gateway, e: Event, due: bool)
    requires Disciplined(g.client.mls) && Step(env, g, e).Some?
    requires g.phase == Idle && g.client.daveVersion >= 1 ==> !due
    ensures var t := Step(env, g, e).value;
      t.phase == Idle && t.client.daveVersion >= 1 ==> !DueAfter(due, g.client.daveVersion, e)
  {
    match e
    case TextMessage(seqNo, text, a) =>
      match text {
        case SessionDescription(_, _) =>
        case _ => StepVersion(env, g, e);
      }
    case BinaryMessage(data, a) =>
      StepVersion(env, g, e);
      if Decides(e) {
        DecidedLeaves(g, data, a);
      }
    case _ =>
  }

  /** After a commit or welcome the loop waits for its refresh, or has ended. */
  lemma DecidedLeaves(g: Gateway, data: seq<Byte>, a: Answer)
    requires Decides(BinaryMessage(data, a))
    ensures OnBinary(g, data, a).phase != Idle
  {}

  /** Ratchet freshness over every interleaving of dispatches and packets, and whatever the loop does or how it ended:
      while no refresh is due, each mapped SSRC whose user has a ratchet has a decryptor that holds it. And between
      dispatches of a DAVE call no refresh is due. */
  lemma {:induction false} RatchetFreshness(env: Foreign, channel: nat, es: seq<Event>, t: Gateway)
    requires Reaches(env, channel, es, t)
    ensures Due(es) || Current(t.client)
    ensures t.phase == Idle && t.client.daveVersion >= 1 ==> !Due(es)
  {
    if es == [] {
      ReachesStart(env, channel, t);
    } else {
      var n := |es| - 1;
      var g := ReachesLast(env, channel, es, t);
      RatchetFreshness(env, channel, es[..n], g);
      VersionRead(env, channel, es[..n], g);
      StepCurrent(env, g, es[n], Due(es[..n]));
      StepIdle(env, g, es[n], Due(es[..n]));
    }
  }

  // ---- and only then ----

  function Epochs(es: seq<Event>): nat {
    if es == [] then 0 else Epochs(es[..|es| - 1]) + if Accepts(es[|es| - 1]) then 1 else 0
  }

  /** The ratchets of an accepted commit or welcome belong to the epoch it opens. */
  predicate InEpoch(e: Event, n: nat) {
    Accepts(e) ==> forall u :: u in e.answer.outcome.ratchets ==> e.answer.outcome.ratchets[u].epoch == n
  }

  predicate NewEpochs(es: seq<Event>) {
    es != [] ==> NewEpochs(es[..|es| - 1]) && InEpoch(es[|es| - 1], Epochs(es))
  }

  /** Whoever speaks does so in a DAVE call. */
  predicate SpeaksGuarded(es: seq<Event>) {
    es != [] ==>
      && SpeaksGuarded(es[..|es| - 1])
      && var e := es[|es| - 1]; e.TextMessage? && e.text.Speaking? ==> DaveVersion(es[..|es| - 1]) >= 1
  }

  /** No user with a mapped SSRC has a ratchet in the session. */
  predicate Keyless(c: Client) { forall ssrc :: ssrc in c.users ==> c.users[ssrc] !in c.mls.session.ratchets }

  /** The session is in epoch `n`; decryptors hold ratchets of no later one, and of earlier ones while a refresh is
      due. */
  predicate InOrder(c: Client, n: nat, due: bool) {
    && (forall u :: u in c.mls.session.ratchets ==> c.mls.session.ratchets[u].epoch == n)
    && (forall ssrc :: ssrc in c.mls.decryptors && c.mls.decryptors[ssrc].ratchet.Some? ==>
          var r := c.mls.decryptors[ssrc].ratchet.value; r.epoch <= n && (due ==> r.epoch < n))
  }

  lemma TextInOrder(g: Gateway, seqNo: Option<nat>, text: Text, a: Answer, n: nat, due: bool)
    requires Disciplined(g.client.mls) && InOrder(g.client, n, due)
    requires text.Speaking? ==> g.client.daveVersion >= 1
    ensures InOrder(OnText(g, text, a).client, n, DueAfter(due, g.client.daveVersion, TextMessage(seqNo, text, a)))
  {
    var c := g.client;
    match text
    case PrepareTransition(_, _) => PassthroughInOrder(c, n, due);
    case Speaking(user, ssrc) =>
      var m := c.mls.(recognized := c.mls.recognized + {user});
      RefreshedInOrder(c.(mls := m, users := c.users[ssrc := user]), n, due);
    case Connect(users) =>
      RefreshedInOrder(c.(mls := c.mls.(recognized := c.mls.recognized + (set u | u in users))), n, due);
    case Execute => RefreshedInOrder(c, n, due);
    case _ => OtherInOrder(g, seqNo, text, a, n, due);
  }

  lemma OtherInOrder(g: Gateway, seqNo: Option<nat>, text: Text, a: Answer, n: nat, due: bool)
    requires Disciplined(g.client.mls) && InOrder(g.client, n, due)
    requires !text.PrepareTransition? && !text.Speaking? && !text.Connect? && !text.Execute?
    ensures InOrder(OnText(g, text, a).client, n, DueAfter(due, g.client.daveVersion, TextMessage(seqNo, text, a)))
  {
    TextRatchets(g, text, a);
    DecryptorsStay(g, text, a);
  }

  lemma DecryptorsStay(g: Gateway, text: Text, a: Answer)
    requires Disciplined(g.client.mls)
    requires !text.PrepareTransition? && !text.Speaking? && !text.Connect? && !text.Execute?
    ensures var before, after := g.client.mls.decryptors, OnText(g, text, a).client.mls.decryptors;
      forall ssrc :: ssrc in after ==> ssrc in before && after[ssrc] == before[ssrc]
  {}

  lemma PassthroughInOrder(c: Client, n: nat, due: bool)
    requires InOrder(c, n, due)
    ensures InOrder(PreparedPassthrough(c), n, due)
  {}

  lemma RefreshedInOrder(c: Client, n: nat, due: bool)
    requires InOrder(c, n, due)
    ensures InOrder(Refreshed(c), n, due && c.daveVersion == 0)
  {}

  lemma StepInOrder(env: Foreign, g: Gateway, e: Event, n: nat, due: bool)
    requires Disciplined(g.client.mls) && Step(env, g, e).Some? && InOrder(g.client, n, due)
    requires InEpoch(e, n + 1) && (e.TextMessage? && e.text.Speaking? ==> g.client.daveVersion >= 1)
    ensures InOrder(Step(env, g, e).value.client, if Accepts(e) then n + 1 else n,
                    DueAfter(due, g.client.daveVersion, e))
  {
    match e
    case TextMessage(seqNo, text, a) => TextInOrder(Sequenced(g, seqNo), seqNo, text, a, n, due);
    case BinaryMessage(data, a) => BinaryAccepted(g, data, a);
    case Packet(data) => HandledInOrder(env, g.client, data, n, due);
    case _ =>
  }

  lemma HandledInOrder(env: Foreign, c: Client, data: seq<Byte>, n: nat, due: bool)
    requires InOrder(c, n, due)
    ensures InOrder(Handled(env, c, data), n, due)
  {}

  lemma {:induction false} RunInOrder(env: Foreign, channel: nat, es: seq<Event>, t: Gateway)
    requires Reaches(env, channel, es, t) && NewEpochs(es) && SpeaksGuarded(es)
    ensures InOrder(t.client, Epochs(es), Due(es))
  {
    if es == [] {
      ReachesStart(env, channel, t);
    } else {
      var n := |es| - 1;
      var g := ReachesLast(env, channel, es, t);
      RunInOrder(env, channel, es[..n], g);
      VersionRead(env, channel, es[..n], g);
      StepInOrder(env, g, es[n], Epochs(es[..n]), Due(es[..n]));
    }
  }

  /** The condition is exact where each accepted commit or welcome brings new ratchets and nobody spoke before op 4: in
      every phase of the loop the decryptors are current if and only if no refresh is due or there is no ratchet for any
      mapped user. */
  lemma StaleExactly(env: Foreign, channel: nat, es: seq<Event>, t: Gateway)
    requires Reaches(env, channel, es, t) && NewEpochs(es) && SpeaksGuarded(es)
    ensures Current(t.client) <==> !Due(es) || Keyless(t.client)
  {
    RatchetFreshness(env, channel, es, t);
    RunInOrder(env, channel, es, t);
  }

  /** A text message that moves decryptors to passthrough: op 21 with version 0. */
  predicate Downgrades(e: Event) { e.TextMessage? && e.text.PrepareTransition? && e.text.target == Some(0) }

  /** Nothing was done to a decryptor, or one thing other than a move to passthrough. */
  predicate Advances(before: seq<DecOp>, after: seq<DecOp>) {
    after == before || (|after| == |before| + 1 && after[..|before|] == before && !after[|before|].ToPassthrough?)
  }

  /** A downgrade moves every decryptor to passthrough, and nothing else moves any. */
  lemma PassthroughExactly(env: Foreign, g: Gateway, e: Event, ssrc: Ssrc)
    requires Disciplined(g.client.mls) && Step(env, g, e).Some? && ssrc in g.client.mls.decryptors
    ensures var before, t := g.client.mls.decryptors[ssrc].log, Step(env, g, e).value.client.mls.decryptors;
      if Downgrades(e) then ssrc in t && t[ssrc].log == before + [ToPassthrough]
      else ssrc in t ==> Advances(before, t[ssrc].log)
  {
    match e
    case TextMessage(seqNo, text, a) => TextMoves(Sequenced(g, seqNo), text, a, ssrc);
    case _ =>
  }

  lemma TextMoves(g: Gateway, text: Text, a: Answer, ssrc: Ssrc)
    requires Disciplined(g.client.mls) && ssrc in g.client.mls.decryptors
    ensures var before, t := g.client.mls.decryptors[ssrc].log, OnText(g, text, a).client.mls.decryptors;
      if text.PrepareTransition? && text.target == Some(0) then ssrc in t && t[ssrc].log == before + [ToPassthrough]
      else ssrc in t ==> Advances(before, t[ssrc].log)
  {
    match text
    case PrepareTransition(_, _) =>
    case Speaking(_, _) =>
    case _ =>
  }

  predicate NoDescription(es: seq<Event>) { forall k :: 0 <= k < |es| ==> !Describes(es[k]) }

  lemma {:induction false} VersionFromDescription(env: Foreign, g: Gateway, es: seq<Event>)
    requires Disciplined(g.client.mls) && Run(env, g, es).Some? && NoDescription(es)
    ensures Run(env, g, es).value.client.daveVersion == g.client.daveVersion
  {
    if es != [] {
      VersionFromDescription(env, g, es[..|es| - 1]);
      StepVersion(env, Run(env, g, es[..|es| - 1]).value, es[|es| - 1]);
    }
  }

  lemma StepVersion(env: Foreign, g: Gateway, e: Event)
    requires Disciplined(g.client.mls) && Step(env, g, e).Some? && !Describes(e)
    ensures Step(env, g, e).value.client.daveVersion == g.client.daveVersion
  {
    match e
    case TextMessage(_, text, _) => match text { case _ => }
    case _ =>
  }

  /** Whatever happens without another op 4 leaves the decryptors current after each dispatch. */
  ghost predicate StaysCurrent(env: Foreign, g: Gateway)
    requires Disciplined(g.client.mls)
  {
    forall es :: Run(env, g, es).Some? && Run(env, g, es).value.phase == Idle && NoDescription(es) ==>
      Current(Run(env, g, es).value.client)
  }

  /** The version guard is exactly the condition for freshness: an upgrade announced by op 24 alone does not give it. */
  lemma FreshnessExact(env: Foreign, channel: nat, es: seq<Event>)
    requires Run(env, NewGateway(channel), es).Some? && Run(env, NewGateway(channel), es).value.phase == Idle
    ensures var g := Run(env, NewGateway(channel), es).value; StaysCurrent(env, g) <==> g.client.daveVersion >= 1
  {
    var g := Run(env, NewGateway(channel), es).value;
    RunFresh(env, NewGateway(channel), es);
    if g.client.daveVersion >= 1 {
      forall more | Run(env, g, more).Some? && Run(env, g, more).value.phase == Idle && NoDescription(more)
        ensures Current(Run(env, g, more).value.client)
      {
        RunFresh(env, g, more);
        VersionFromDescription(env, g, more);
      }
    } else {
      Unguarded(env, g);
    }
  }

  lemma WelcomeStep(g: Gateway, a: Answer)
    requires g.phase == Idle && a.outcome.Advanced? && a.sendOk && !a.raises
    ensures var t := OnBinary(g, [0, 0, 30, 0, 0], a);
      t.phase == Parked && OnlySession(g, t) && t.client.mls.session.ratchets == a.outcome.ratchets
  {
    assert Opcodes.DecodeBinary([0, 0, 30, 0, 0]).value.payload == [0, 0];
  }

  /** Op 24 upgrades the call and makes a group. */
  lemma UpgradeStep(g: Gateway, a: Answer)
    requires Disciplined(g.client.mls) && g.phase == Idle && a.sendOk
    ensures var t := OnText(g, Epoch(1, 1), a);
      t.phase == Idle && t.client.mls.session.started && t.client.daveVersion == g.client.daveVersion
  {}

  /** Op 24 upgrades the call, a user speaks and the bot is welcomed into the group; without the guard nobody wires the
      user's ratchet. */
  lemma Unguarded(env: Foreign, g: Gateway)
    requires Disciplined(g.client.mls) && g.phase == Idle && g.client.daveVersion == 0
    ensures !StaysCurrent(env, g)
  {
    var held := Existing(g.client.mls.decryptors, 0).ratchet;
    var r := if held == Some(Ratchet(0, 0)) then Ratchet(0, 1) else Ratchet(0, 0);
    var yes := Answer(false, Advanced(map[0 := r]), None, [], true);
    var upgrade, speaking := TextMessage(None, Epoch(1, 1), yes), TextMessage(None, Speaking(0, 0), yes);
    UpgradeStep(g, yes);
    var g1 := OnText(g, upgrade.text, yes);
    RunTo(env, g, [], g, upgrade, g1);
    var g2 := g1.(client := Spoke(g1.client, 0, 0));
    RunTo(env, g, [upgrade], g1, speaking, g2);
    UnguardedWelcome(env, g, [upgrade] + [speaking], g2, r);
  }

  /** The second half: the welcome, in a call with a mapped speaker whose decryptor holds something else. */
  lemma UnguardedWelcome(env: Foreign, g: Gateway, es: seq<Event>, g2: Gateway, r: Ratchet)
    requires Disciplined(g.client.mls) && Run(env, g, es) == Some(g2) && NoDescription(es)
    requires g2.phase == Idle && g2.client.daveVersion == 0 && g2.client.mls.session.started
    requires Maps(g2.client, 0, 0) && Existing(g2.client.mls.decryptors, 0).ratchet != Some(r)
    ensures !StaysCurrent(env, g)
  {
    var welcome := BinaryMessage([0, 0, 30, 0, 0], Answer(false, Advanced(map[0 := r]), None, [], true));
    var g3, g4 := WelcomeAndResume(env, g2, r);
    RunTo(env, g, es, g2, welcome, g3);
    RunTo(env, g, es + [welcome], g3, Resume, g4);
    NotWired(g4.client, r);
    StaleEnd(env, g, es + [welcome] + [Resume], g4);
  }

  lemma WelcomeAndResume(env: Foreign, g: Gateway, r: Ratchet) returns (parked: Gateway, t: Gateway)
    requires Disciplined(g.client.mls) && g.phase == Idle && g.client.daveVersion == 0 && g.client.mls.session.started
    ensures Disciplined(parked.client.mls) && Step(env, parked, Resume) == Some(t) && t.phase == Idle
    ensures Step(env, g, BinaryMessage([0, 0, 30, 0, 0], Answer(false, Advanced(map[0 := r]), None, [], true))) ==
      Some(parked)
    ensures t.client.users == g.client.users && t.client.mls.decryptors == g.client.mls.decryptors
    ensures t.client.mls.session.ratchets == map[0 := r]
  {
    var yes := Answer(false, Advanced(map[0 := r]), None, [], true);
    WelcomeStep(g, yes);
    parked := OnBinary(g, [0, 0, 30, 0, 0], yes);
    t := parked.(phase := Idle);
  }

  lemma StaleEnd(env: Foreign, g: Gateway, es: seq<Event>, t: Gateway)
    requires Disciplined(g.client.mls) && Run(env, g, es) == Some(t) && NoDescription(es)
    requires t.phase == Idle && !Current(t.client)
    ensures !StaysCurrent(env, g)
  {}

  lemma NotWired(c: Client, r: Ratchet)
    requires Maps(c, 0, 0) && c.mls.session.ratchets == map[0 := r] && Existing(c.mls.decryptors, 0).ratchet != Some(r)
    ensures !Current(c)
  {
    assert c.users[0] == 0 && c.mls.session.ratchets[0] == r;
  }

  lemma RunTo(env: Foreign, g: Gateway, es: seq<Event>, before: Gateway, e: Event, after: Gateway)
    requires Disciplined(g.client.mls) && Run(env, g, es) == Some(before) && Step(env, before, e) == Some(after)
    ensures Run(env, g, es + [e]) == Some(after)
  {
    assert (es + [e])[..|es|] == es;
  }

  /** The last ratchet a decryptor was moved to. */
  function Held(log: seq<DecOp>): Option<Ratchet> {
    if log == [] then None
    else if log[|log| - 1].ToRatchet? then Some(log[|log| - 1].r)
    else Held(log[..|log| - 1])
  }

  predicate Logged(c: Client) {
    forall ssrc :: ssrc in c.mls.decryptors ==> c.mls.decryptors[ssrc].ratchet == Held(c.mls.decryptors[ssrc].log)
  }

  lemma HeldSnoc(log: seq<DecOp>, op: DecOp)
    ensures Held(log + [op]) == if op.ToRatchet? then Some(op.r) else Held(log)
  {
    assert (log + [op])[..|log|] == log;
  }

  lemma RefreshedLogged(c: Client)
    requires Logged(c)
    ensures Logged(Refreshed(c))
  {
    forall ssrc, r: Ratchet ensures Held(Existing(c.mls.decryptors, ssrc).log + [ToRatchet(r)]) == Some(r) {
      HeldSnoc(Existing(c.mls.decryptors, ssrc).log, ToRatchet(r));
    }
  }

  lemma PassthroughLogged(c: Client)
    requires Logged(c)
    ensures Logged(PreparedPassthrough(c))
  {
    forall ssrc | ssrc in c.mls.decryptors
      ensures Held(PassThrough(c.mls.decryptors[ssrc]).log) == Held(c.mls.decryptors[ssrc].log)
    {
      HeldSnoc(c.mls.decryptors[ssrc].log, ToPassthrough);
    }
  }

  lemma HeardLogged(c: Client, ssrc: Ssrc, frame: seq<Byte>)
    requires Logged(c)
    ensures Logged(Heard(c, ssrc, frame))
  {
    HeldSnoc(Existing(c.mls.decryptors, ssrc).log, Frame(frame));
  }

  lemma HandledLogged(env: Foreign, c: Client, data: seq<Byte>)
    requires Logged(c)
    ensures Logged(Handled(env, c, data))
  {
    match TransportFrame(env, c, data)
    case None =>
    case Some((ssrc, frame)) =>
      HeardLogged(c, ssrc, frame);
      assert Handled(env, c, data).mls == Heard(c, ssrc, frame).mls;
  }

  lemma TextLogged(g: Gateway, text: Text, a: Answer)
    requires Disciplined(g.client.mls) && Logged(g.client)
    ensures Logged(OnText(g, text, a).client)
  {
    var c := g.client;
    match text
    case Speaking(user, ssrc) =>
      RefreshedLogged(c.(mls := c.mls.(recognized := c.mls.recognized + {user}), users := c.users[ssrc := user]));
    case Connect(users) =>
      RefreshedLogged(c.(mls := c.mls.(recognized := c.mls.recognized + (set u | u in users))));
    case Execute => RefreshedLogged(c);
    case PrepareTransition(_, _) => PassthroughLogged(c);
    case _ =>
  }

  lemma StepLogged(env: Foreign, g: Gateway, e: Event)
    requires Disciplined(g.client.mls) && Step(env, g, e).Some? && Logged(g.client)
    ensures Logged(Step(env, g, e).value.client)
  {
    match e
    case TextMessage(seqNo, text, a) => TextLogged(Sequenced(g, seqNo), text, a);
    case Packet(data) => HandledLogged(env, g.client, data);
    case Resume => RefreshedLogged(g.client);
    case _ =>
  }

  /** What the model says a decryptor holds is what the calls made on it say. */
  lemma {:induction false} HeldIsLogged(env: Foreign, channel: nat, es: seq<Event>, t: Gateway)
    requires Reaches(env, channel, es, t)
    ensures Logged(t.client)
  {
    if es == [] {
      ReachesStart(env, channel, t);
    } else {
      var g := ReachesLast(env, channel, es, t);
      HeldIsLogged(env, channel, es[..|es| - 1], g);
      StepLogged(env, g, es[|es| - 1]);
    }
  }

  /** A packet as a sender builds it is played with exactly the frame that was sent. */
  lemma SentFrameIsPlayed(env: Foreign, c: Client, p: Framing.Sent,
                          seal: (seq<Byte>, seq<Byte>, seq<Byte>) -> seq<Byte>)
    requires Framing.WellFormed(p) && c.transport.Some? && p.ssrc in c.users
    requires Framing.Inverts(seal, (a, t, n) => env.open(c.transport.value, a, t, n))
    ensures Handled(env, c, Framing.SealedDatagram(seal, p)) == Played(env, c, p.ssrc, p.frame)
  {
    var open := (a, t, n) => env.open(c.transport.value, a, t, n);
    var data := Framing.SealedDatagram(seal, p);
    Framing.ReceiveSent(seal, open, p);
    var header, plain := Framing.FixedHeader(p) + Framing.Preamble(p), Framing.ExtensionBody(p) + p.frame;
    Framing.DatagramHeader(p, seal(header, plain, p.nonce));
    assert Framing.Receive(open, data) == Some(p.frame);
    assert TransportFrame(env, c, data) == Some((p.ssrc, p.frame));
  }

  /** End to end: while no refresh is due, as between dispatches of a DAVE call, the frame that a user of the group
      sends meets, unchanged, a decryptor whose last move was to the user's ratchet in the current session. */
  lemma SentFrameMeetsItsRatchet(env: Foreign, channel: nat, es: seq<Event>, t: Gateway, p: Framing.Sent,
                                 seal: (seq<Byte>, seq<Byte>, seq<Byte>) -> seq<Byte>)
    requires Reaches(env, channel, es, t) && !Due(es)
    requires var c := t.client;
      && c.transport.Some?
      && Framing.WellFormed(p) && Framing.Inverts(seal, (a, t, n) => env.open(c.transport.value, a, t, n))
      && p.ssrc in c.users && c.users[p.ssrc] in c.mls.session.ratchets
    ensures var c := t.client;
      && Handled(env, c, Framing.SealedDatagram(seal, p)) == Played(env, c, p.ssrc, p.frame)
      && p.ssrc in c.mls.decryptors
      && Held(c.mls.decryptors[p.ssrc].log) == Some(c.mls.session.ratchets[c.users[p.ssrc]])
  {
    RatchetFreshness(env, channel, es, t);
    HeldIsLogged(env, channel, es, t);
    SentFrameIsPlayed(env, t.client, p, seal);
  }

  /** No decryptor holds a ratchet of another user than the one its SSRC is mapped to. */
  predicate Owned(c: Client) {
    forall ssrc :: ssrc in c.mls.decryptors && c.mls.decryptors[ssrc].ratchet.Some? ==>
      ssrc in c.users && c.mls.decryptors[ssrc].ratchet.value.user == c.users[ssrc]
  }

  predicate Keyed(ratchets: map<User, Ratchet>) { forall u :: u in ratchets ==> ratchets[u].user == u }

  /** What the session exports for a user is a ratchet of that user. */
  predicate KeyedEvent(e: Event) { e.BinaryMessage? && e.answer.outcome.Advanced? ==> Keyed(e.answer.outcome.ratchets) }

  /** A speaking event gives an SSRC to a user while its decryptor holds someone else's ratchet, and there is no
      ratchet to replace it with. */
  predicate TakesOver(g: Gateway, e: Event) {
    && e.TextMessage? && e.text.Speaking?
    && var c := g.client; var d := Existing(c.mls.decryptors, e.text.ssrc);
    && d.ratchet.Some? && d.ratchet.value.user != e.text.user
    && !(c.daveVersion >= 1 && e.text.user in c.mls.session.ratchets)
  }

  lemma SpokeOwned(g: Gateway, seqNo: Option<nat>, user: User, ssrc: Ssrc, a: Answer)
    requires Owned(g.client) && Keyed(g.client.mls.session.ratchets)
    ensures Owned(Spoke(g.client, user, ssrc)) <==> !TakesOver(g, TextMessage(seqNo, Speaking(user, ssrc), a))
  {
    var c, t := g.client, Spoke(g.client, user, ssrc);
    if TakesOver(g, TextMessage(seqNo, Speaking(user, ssrc), a)) {
      assert t.mls.decryptors[ssrc].ratchet == c.mls.decryptors[ssrc].ratchet;
    }
  }

  lemma TextOwned(g: Gateway, text: Text, a: Answer)
    requires Disciplined(g.client.mls) && Owned(g.client) && Keyed(g.client.mls.session.ratchets) && !text.Speaking?
    ensures Owned(OnText(g, text, a).client)
  {
    match text
    case PrepareTransition(_, _) =>
    case Disconnect(_) =>
    case Connect(_) =>
    case Execute => RefreshedOwned(g.client);
    case _ =>
  }

  /** Text messages never bring ratchets. */
  lemma TextRatchets(g: Gateway, text: Text, a: Answer)
    requires Disciplined(g.client.mls)
    ensures OnText(g, text, a).client.mls.session.ratchets in {map[], g.client.mls.session.ratchets}
  {
    match text
    case Epoch(_, _) =>
    case _ =>
  }

  lemma StepKeyed(env: Foreign, g: Gateway, e: Event)
    requires Disciplined(g.client.mls) && Step(env, g, e).Some? && Keyed(g.client.mls.session.ratchets) && KeyedEvent(e)
    ensures Keyed(Step(env, g, e).value.client.mls.session.ratchets)
  {
    match e
    case TextMessage(seqNo, text, a) => TextRatchets(Sequenced(g, seqNo), text, a);
    case BinaryMessage(data, a) => BinaryAccepted(g, data, a);
    case _ =>
  }

  lemma HandledOwned(env: Foreign, c: Client, data: seq<Byte>)
    requires Owned(c)
    ensures Owned(Handled(env, c, data))
  {}

  lemma RefreshedOwned(c: Client)
    requires Owned(c) && Keyed(c.mls.session.ratchets)
    ensures Owned(Refreshed(c))
  {}

  lemma StepOwned(env: Foreign, g: Gateway, e: Event)
    requires Disciplined(g.client.mls) && Step(env, g, e).Some?
    requires Owned(g.client) && Keyed(g.client.mls.session.ratchets)
    ensures Owned(Step(env, g, e).value.client) <==> !TakesOver(g, e)
  {
    match e
    case TextMessage(seqNo, text, a) =>
      if text.Speaking? {
        SpokeOwned(g, seqNo, text.user, text.ssrc, a);
      } else {
        TextOwned(Sequenced(g, seqNo), text, a);
      }
    case BinaryMessage(_, _) =>
    case Resume => RefreshedOwned(g.client);
    case Packet(data) => HandledOwned(env, g.client, data);
    case Close =>
  }

  predicate KeyedRun(es: seq<Event>) { forall k :: 0 <= k < |es| ==> KeyedEvent(es[k]) }

  lemma {:induction false} RunKeyed(env: Foreign, channel: nat, es: seq<Event>, t: Gateway)
    requires Reaches(env, channel, es, t) && KeyedRun(es)
    ensures Keyed(t.client.mls.session.ratchets)
  {
    if es == [] {
      ReachesStart(env, channel, t);
    } else {
      var g := ReachesLast(env, channel, es, t);
      RunKeyed(env, channel, es[..|es| - 1], g);
      StepKeyed(env, g, es[|es| - 1]);
    }
  }

  /** Throughout a run, decryptors hold only their own user's ratchets. */
  ghost predicate OwnedThroughout(env: Foreign, channel: nat, es: seq<Event>) {
    forall n, g :: 0 <= n <= |es| && Reaches(env, channel, es[..n], g) ==> Owned(g.client)
  }

  /** No speaking event of a run takes an SSRC over. */
  ghost predicate NoTakeover(env: Foreign, channel: nat, es: seq<Event>) {
    forall n, g :: 0 <= n < |es| && Reaches(env, channel, es[..n], g) ==> !TakesOver(g, es[n])
  }

  lemma OwnedNext(env: Foreign, channel: nat, es: seq<Event>, n: nat, g: Gateway, t: Gateway)
    requires n < |es| && KeyedRun(es) && Disciplined(g.client.mls)
    requires Reaches(env, channel, es[..n], g) && Step(env, g, es[n]) == Some(t) && Owned(g.client)
    ensures Owned(t.client) <==> !TakesOver(g, es[n])
  {
    RunKeyed(env, channel, es[..n], g);
    StepOwned(env, g, es[n]);
  }

  lemma {:induction false} OwnedUpTo(env: Foreign, channel: nat, es: seq<Event>, n: nat, t: Gateway)
    requires n <= |es| && KeyedRun(es) && NoTakeover(env, channel, es) && Reaches(env, channel, es[..n], t)
    ensures Owned(t.client)
  {
    if n == 0 {
      ReachesStart(env, channel, t);
    } else {
      var g := ReachesLast(env, channel, es[..n], t);
      assert es[..n][..n - 1] == es[..n - 1];
      OwnedUpTo(env, channel, es, n - 1, g);
      OwnedNext(env, channel, es, n - 1, g, t);
    }
  }

  /** Ownership over runs: decryptors hold only their own user's ratchets throughout, if and only if no speaking event
      takes an SSRC over. */
  lemma OwnershipExact(env: Foreign, channel: nat, es: seq<Event>, t: Gateway)
    requires Reaches(env, channel, es, t) && KeyedRun(es)
    ensures OwnedThroughout(env, channel, es) <==> NoTakeover(env, channel, es)
  {
    if NoTakeover(env, channel, es) {
      forall n, g | 0 <= n <= |es| && Reaches(env, channel, es[..n], g)
        ensures Owned(g.client)
      {
        OwnedUpTo(env, channel, es, n, g);
      }
    }
    if OwnedThroughout(env, channel, es) {
      forall n, g | 0 <= n < |es| && Reaches(env, channel, es[..n], g)
        ensures !TakesOver(g, es[n])
      {
        var u := ReachesNext(env, channel, es, n, g, t);
        OwnedNext(env, channel, es, n, g, u);
      }
    }
  }

  /** A run that goes on after `n` events has a next state. */
  lemma {:induction false} ReachesNext(env: Foreign, channel: nat, es: seq<Event>, n: nat, g: Gateway, t: Gateway)
    returns (u: Gateway)
    requires n < |es| && Reaches(env, channel, es[..n], g) && Reaches(env, channel, es, t)
    ensures Disciplined(g.client.mls) && Step(env, g, es[n]) == Some(u) && Reaches(env, channel, es[..n + 1], u)
    decreases |es|
  {
    var h := ReachesLast(env, channel, es, t);
    if n < |es| - 1 {
      var rest := es[..|es| - 1];
      assert rest[..n] == es[..n] && rest[..n + 1] == es[..n + 1];
      u := ReachesNext(env, channel, rest, n, g, h);
    } else {
      assert Run(env, NewGateway(channel), es[..n]) == Some(g);
      assert Run(env, NewGateway(channel), es[..n]) == Some(h);
      assert es[..n + 1] == es;
      u := t;
    }
  }

  // ---- a run in which ownership fails ----

  lemma DescribedStep(g: Gateway, key: Key, a: Answer)
    requires Disciplined(g.client.mls) && g.phase == Idle && a.sendOk
    ensures var t := OnText(g, SessionDescription(1, Some(key)), a);
      && t.phase == Idle && t.client.daveVersion == 1 && t.client.mls.session.started
      && t.client.users == g.client.users && t.client.mls.decryptors == g.client.mls.decryptors
  {}

  /** In a DAVE call user 1 speaks with SSRC 7. */
  lemma SpeakingRun(env: Foreign, yes: Answer) returns (es: seq<Event>, t: Gateway)
    requires yes.sendOk
    ensures Reaches(env, 0, es, t) && Disciplined(t.client.mls) && t.phase == Idle && t.client.mls.session.started
    ensures t.client.daveVersion == 1 && t.client.users == map[7 := 1] && t.client.mls.decryptors == map[]
    ensures forall k :: 0 <= k < |es| ==> es[k].TextMessage?
  {
    var g, key := NewGateway(0), Key("", []);
    var four := TextMessage(None, SessionDescription(1, Some(key)), yes);
    var speaking := TextMessage(None, Speaking(1, 7), yes);
    DescribedStep(g, key, yes);
    var g1 := OnText(g, four.text, yes);
    ReachesMore(env, 0, [], g, four, g1);
    t := g1.(client := Spoke(g1.client, 1, 7));
    ReachesMore(env, 0, [] + [four], g1, speaking, t);
    es := [] + [four] + [speaking];
  }

  /** A refresh can stay due, for good: the bot is welcomed, its reply cannot be sent, and the loop ends before the
      ratchets are refreshed. Packets are still handled, with a decryptor that was never given the ratchet. */
  lemma SendFailureStale(env: Foreign) returns (es: seq<Event>, t: Gateway)
    ensures Reaches(env, 0, es, t) && t.phase == Ended && t.client.daveVersion >= 1
    ensures Due(es) && !Keyless(t.client) && !Current(t.client)
  {
    var yes := Answer(false, Rejected, None, [], true);
    var first, g := SpeakingRun(env, yes);
    var failing := yes.(outcome := Advanced(map[1 := Ratchet(1, 1)]), sendOk := false);
    var welcome := BinaryMessage([0, 0, 30, 0, 0], failing);
    LostWelcome(g, failing);
    t := OnBinary(g, welcome.data, failing);
    ReachesMore(env, 0, first, g, welcome, t);
    es := first + [welcome];
    assert t.client.users[7] == 1;
  }

  lemma LostWelcome(g: Gateway, a: Answer)
    requires g.phase == Idle && a.outcome.Advanced? && !a.sendOk && !a.raises
    ensures var t := OnBinary(g, [0, 0, 30, 0, 0], a);
      t.phase == Ended && OnlySession(g, t) && t.client.mls.session.ratchets == a.outcome.ratchets
  {
    assert Opcodes.DecodeBinary([0, 0, 30, 0, 0]).value.payload == [0, 0];
  }

  /** Then the bot is welcomed. */
  lemma WelcomedRun(env: Foreign) returns (es: seq<Event>, t: Gateway)
    ensures Reaches(env, 0, es, t) && KeyedRun(es) && Disciplined(t.client.mls) && t.phase == Idle
    ensures t.client.mls.session.ratchets == map[1 := Ratchet(1, 0)] && t.client.users == map[7 := 1]
    ensures 7 in t.client.mls.decryptors && t.client.mls.decryptors[7].ratchet == Some(Ratchet(1, 0))
    ensures t.client.mls.decryptors.Keys == {7}
  {
    var yes := Answer(false, Advanced(map[1 := Ratchet(1, 0)]), None, [], true);
    var first, g := SpeakingRun(env, yes);
    var welcome := BinaryMessage([0, 0, 30, 0, 0], yes);
    WelcomeStep(g, yes);
    var parked := OnBinary(g, welcome.data, yes);
    ReachesMore(env, 0, first, g, welcome, parked);
    t := parked.(client := Refreshed(parked.client), phase := Idle);
    ReachesMore(env, 0, first + [welcome], parked, Resume, t);
    es := first + [welcome] + [Resume];
  }

  /** The condition of `OwnershipExact` can fail: then another user, who has no ratchet, claims the SSRC. */
  lemma TakeoverHappens(env: Foreign) returns (es: seq<Event>, t: Gateway, e: Event)
    ensures Reaches(env, 0, es, t) && KeyedRun(es + [e]) && TakesOver(t, e)
    ensures Disciplined(t.client.mls) && Step(env, t, e).Some?
    ensures Owned(t.client) && !Owned(Step(env, t, e).value.client)
  {
    es, t := WelcomedRun(env);
    e := TextMessage(None, Speaking(2, 7), Answer(false, Missing, None, [], true));
    StepOwned(env, t, e);
  }
}
