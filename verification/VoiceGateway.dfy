/**
 dave_voice/voice_ws.py: the receive loop of the voice gateway. A dispatch can be interrupted by packets only where
 it awaits a send, and only commits and welcomes have work left after theirs; so a step is a message up to its send,
 the rest of a dispatch, or a packet.
 */
module VoiceGateways {
  import opened Bytes
  import opened Wrappers
  import opened Mls
  import opened VoiceClients
  import opened Opcodes

  /** A text message, by its op; `Malformed` is any that raises before it changes anything. */
  datatype Text =
    | Hello
    | SessionDescription(dave: nat, key: Option<Key>)
    | Speaking(user: User, ssrc: Ssrc)
    | Epoch(version: nat, epoch: nat)
    | PrepareTransition(tid: nat, target: Option<nat>)
    | Execute
    | Connect(users: seq<User>)
    | Disconnect(user: User)
    | Ignored
    | Malformed

  /** What foreign code does with a message: the answers of the session, and whether the send goes out. */
  datatype Answer = Answer(raises: bool, outcome: Outcome, commit: Option<seq<Byte>>, keyPackage: seq<Byte>,
                           sendOk: bool)

  /** Only a session with a group has an epoch to advance. */
  predicate Possible(m: MlsState, a: Answer) { a.outcome.Advanced? ==> m.session.started }

  datatype Event =
    | TextMessage(seqNo: Option<nat>, text: Text, answer: Answer)
    | BinaryMessage(data: seq<Byte>, answer: Answer)
    | Resume
    | Packet(data: seq<Byte>)
    | Close

  /** Where the receive loop is: waiting for a message, between the send and `on_mls_change`, or ended. */
  datatype Phase = Idle | Parked | Ended

  /** A message on the wire, as text or in binary. */
  datatype WireFrame = JsonFrame(op: nat, body: Body) | BinaryFrame(op: nat, body: Body)

  datatype Gateway = Gateway(client: Client, phase: Phase, lastSeq: nat, heartbeats: nat, sent: seq<WireFrame>)

  function NewGateway(channel: nat): Gateway { Gateway(NewClient(channel), Idle, 0, 0, []) }

  predicate JsonReply(op: nat) { op == TRANSITION_READY || op == INVALID_COMMIT_WELCOME }

  function Encoded(r: Reply): WireFrame {
    if JsonReply(r.op) then JsonFrame(r.op, r.body) else BinaryFrame(r.op, r.body)
  }

  /** A send that fails raises, which ends the receive loop. */
  function Posted(g: Gateway, frame: WireFrame, ok: bool): Gateway {
    if ok then g.(sent := g.sent + [frame]) else g.(phase := Ended)
  }

  function Replied(g: Gateway, reply: Option<Reply>, ok: bool): Gateway {
    match reply
    case None => g
    case Some(r) => Posted(g, Encoded(r), ok)
  }

  function KeyPackageReply(a: Answer): Option<Reply> { Some(Reply(KEY_PACKAGE, Blob(a.keyPackage))) }

  function WithMls(g: Gateway, m: MlsState): Gateway { g.(client := g.client.(mls := m)) }

  /** Of the client, only the session differs. */
  predicate OnlySession(g: Gateway, t: Gateway) {
    t.client == g.client.(mls := g.client.mls.(session := t.client.mls.session))
  }

  /** A commit or a welcome, up to and including the send of its reply. */
  function Advance(g: Gateway, payload: seq<Byte>, a: Answer, welcome: bool): (t: Gateway)
    ensures OnlySession(g, t)
  {
    if |payload| < 2 then g.(phase := Ended)
    else
      var tid, m := U16(payload[..2]), g.client.mls;
      var asked := Ask(m, if welcome then WelcomeCall(payload[2..], m.recognized) else CommitCall(payload[2..]));
      var reply := if welcome then WelcomeReply(tid, a.outcome) else ReadyOrInvalid(tid, a.outcome);
      if a.raises then WithMls(g, asked).(phase := Ended)
      else Posted(WithMls(g, Process(asked, a.outcome)).(phase := Parked), Encoded(reply), a.sendOk)
  }

  /** What it does to the session: one more call, and the new ratchets if it is accepted. */
  lemma AdvanceSession(g: Gateway, payload: seq<Byte>, a: Answer, welcome: bool)
    ensures var m, t := g.client.mls, Advance(g, payload, a, welcome).client.mls.session;
      if |payload| < 2 then t == m.session
      else
        && t.inits == m.session.inits
        && t.asked == m.session.asked + [if welcome then WelcomeCall(payload[2..], m.recognized)
                                         else CommitCall(payload[2..])]
        && t.ratchets == if a.outcome.Advanced? && !a.raises then a.outcome.ratchets else m.session.ratchets
  {}

  function OnProposals(g: Gateway, payload: seq<Byte>, a: Answer): (t: Gateway)
    ensures OnlySession(g, t)
  {
    var h := WithMls(g, Ask(g.client.mls, ProposalsCall(payload, g.client.mls.recognized)));
    if a.raises then h.(phase := Ended)
    else Replied(h, if a.commit.Some? then Some(Reply(COMMIT_WELCOME, Blob(a.commit.value))) else None, a.sendOk)
  }

  function OnBinary(g: Gateway, data: seq<Byte>, a: Answer): (t: Gateway)
    ensures OnlySession(g, t)
    ensures Disciplined(g.client.mls) ==> Disciplined(t.client.mls)
    ensures t.client.mls.group == g.client.mls.group
  {
    match DecodeBinary(data)
    case None => g.(phase := Ended)
    case Some(f) =>
      var h := g.(lastSeq := f.seqNo);
      if f.opcode == EXTERNAL_SENDER then
        WithMls(h, Ask(h.client.mls, SenderCall(f.payload))).(phase := if a.raises then Ended else h.phase)
      else if f.opcode == PROPOSALS then OnProposals(h, f.payload, a)
      else if f.opcode == ANNOUNCE_COMMIT then Advance(h, f.payload, a, false)
      else if f.opcode == WELCOME then Advance(h, f.payload, a, true)
      else h
  }

  /** The sequence number of a text message, if it has one. */
  function Sequenced(g: Gateway, seqNo: Option<nat>): Gateway {
    g.(lastSeq := if seqNo.Some? then seqNo.value else g.lastSeq)
  }

  function OnText(g: Gateway, text: Text, a: Answer): (t: Gateway)
    requires Disciplined(g.client.mls)
    ensures Disciplined(t.client.mls) && t.client.mls.group == g.client.mls.group
  {
    var c := g.client;
    match text
    case Hello => g.(heartbeats := if g.heartbeats == 0 then 1 else g.heartbeats)
    case SessionDescription(dave, key) =>
      var d := Described(c, dave, key);
      if key.None? then g.(client := d, phase := Ended)
      else if dave >= 1 then
        Replied(g.(client := d.(mls := WithGroup(d.mls, dave))), KeyPackageReply(a), a.sendOk)
      else g.(client := d)
    case Speaking(user, ssrc) => g.(client := Spoke(c, user, ssrc))
    case Epoch(version, epoch) =>
      Replied(g.(client := c.(mls := PrepareEpoch(c.mls, version, epoch))),
              if epoch == 1 then KeyPackageReply(a) else None, a.sendOk)
    case PrepareTransition(tid, version) =>
      Posted(if version == Some(0) then g.(client := PreparedPassthrough(c)) else g,
             JsonFrame(TRANSITION_READY, TransitionId(tid)), a.sendOk)
    case Execute => g.(client := Refreshed(c))
    case Connect(users) => g.(client := Connected(c, users))
    case Disconnect(user) => g.(client := Disconnected(c, user))
    case Ignored => g
    case Malformed => g.(phase := Ended)
  }

  /** One step, or `None` where it cannot happen: messages are dispatched one at a time until the loop ends, while
      packets come at any time. */
  function Step(env: Foreign, g: Gateway, e: Event): (t: Option<Gateway>)
    requires Disciplined(g.client.mls)
    ensures t.Some? ==> Disciplined(t.value.client.mls) && t.value.client.mls.group == g.client.mls.group
  {
    match e
    case TextMessage(seqNo, text, a) =>
      if g.phase != Idle then None
      else Some(OnText(Sequenced(g, seqNo), text, a))
    case BinaryMessage(data, a) =>
      if g.phase != Idle || !Possible(g.client.mls, a) then None else Some(OnBinary(g, data, a))
    case Resume => if g.phase != Parked then None else Some(g.(client := Refreshed(g.client), phase := Idle))
    case Packet(data) => Some(g.(client := Handled(env, g.client, data)))
    case Close => Some(g.(phase := Ended))
  }

  class VoiceGateway {
    const client: VoiceClient
    const mls: MlsManager
    const opus: OpusDecoders
    /** The program counter of the receive loop. */
    var phase: Phase
    var lastSeq: nat
    var heartbeats: nat
    var sent: seq<WireFrame>

    function View(): Gateway
      reads this, client, client.mls, client.opus
    {
      Gateway(client.View(), phase, lastSeq, heartbeats, sent)
    }

    predicate Linked() { client.mls == mls && client.opus == opus }

    constructor (env: Foreign, channel: nat)
      ensures fresh(client) && fresh(mls) && fresh(opus) && client.env == env && Linked()
      ensures View() == NewGateway(channel)
    {
      var c := new VoiceClient(env, channel);
      client, mls, opus := c, c.mls, c.opus;
      phase, lastSeq, heartbeats, sent := Idle, 0, 0, [];
    }

    method Post(frame: WireFrame, ok: bool)
      modifies `sent, `phase
      ensures View() == Posted(old(View()), frame, ok)
    {
      if ok {
        sent := sent + [frame];
      } else {
        phase := Ended;
      }
    }

    /** `_send_reply`. */
    method SendReply(reply: Option<Reply>, ok: bool)
      modifies `sent, `phase
      ensures View() == Replied(old(View()), reply, ok)
    {
      if reply.Some? {
        var r := reply.value;
        Post(if JsonReply(r.op) then JsonFrame(r.op, r.body) else BinaryFrame(r.op, r.body), ok);
      }
    }

    method DispatchAdvance(payload: seq<Byte>, a: Answer, welcome: bool)
      requires Linked()
      modifies this, mls
      ensures View() == Advance(old(View()), payload, a, welcome)
    {
      if |payload| < 2 {
        phase := Ended;
        return;
      }
      var tid, ok, reply := U16(payload[..2]), true, Reply(0, Blob([]));
      if welcome {
        ok, reply := mls.OnWelcome(tid, payload[2..], a.raises, a.outcome);
      } else {
        ok, reply := mls.OnAnnounceCommit(tid, payload[2..], a.raises, a.outcome);
      }
      if !ok {
        phase := Ended;
        return;
      }
      phase := Parked;
      SendReply(Some(reply), a.sendOk);
    }

    method DispatchProposals(payload: seq<Byte>, a: Answer)
      requires Linked()
      modifies this, mls
      ensures View() == OnProposals(old(View()), payload, a)
    {
      var ok, reply := mls.OnProposals(payload, a.raises, a.commit);
      if ok {
        SendReply(reply, a.sendOk);
      } else {
        phase := Ended;
      }
    }

    /** The binary half of `_dispatch`. */
    method DispatchBinary(data: seq<Byte>, a: Answer)
      requires Linked() && phase == Idle && Possible(client.mls.View(), a) && Disciplined(client.mls.View())
      modifies this, mls
      ensures Step(client.env, old(View()), BinaryMessage(data, a)) == Some(View())
    {
      var frame := DecodeBinary(data);
      if frame.None? {
        phase := Ended;
        return;
      }
      var f := frame.value;
      lastSeq := f.seqNo;
      if f.opcode == ANNOUNCE_COMMIT {
        DispatchAdvance(f.payload, a, false);
      } else if f.opcode == WELCOME {
        DispatchAdvance(f.payload, a, true);
      } else if f.opcode == PROPOSALS {
        DispatchProposals(f.payload, a);
      } else if f.opcode == EXTERNAL_SENDER {
        var ok := mls.OnExternalSender(f.payload, a.raises);
        if !ok {
          phase := Ended;
        }
      }
    }

    method DispatchSessionDescription(dave: nat, key: Option<Key>, a: Answer)
      requires Linked() && Disciplined(client.mls.View())
      modifies this, client, mls
      ensures View() == OnText(old(View()), SessionDescription(dave, key), a)
    {
      var ok := client.OnSessionDescription(dave, key);
      if !ok {
        phase := Ended;
      } else if dave >= 1 {
        var reply := mls.InitializeGroup(dave, a.keyPackage);
        SendReply(Some(reply), a.sendOk);
      }
    }

    method DispatchPrepareEpoch(version: nat, epoch: nat, a: Answer)
      requires Linked() && Disciplined(client.mls.View())
      modifies this, mls
      ensures View() == OnText(old(View()), Epoch(version, epoch), a)
    {
      var reply := mls.OnPrepareEpoch(version, epoch, a.keyPackage);
      SendReply(reply, a.sendOk);
    }

    method DispatchPrepareTransition(tid: nat, version: Option<nat>, a: Answer)
      requires Linked() && Disciplined(client.mls.View())
      modifies this, mls
      ensures View() == OnText(old(View()), PrepareTransition(tid, version), a)
    {
      if version == Some(0) {
        client.OnPreparePassthrough();
      }
      Post(JsonFrame(TRANSITION_READY, TransitionId(tid)), a.sendOk);
    }

    /** The text half of `_dispatch`. */
    method DispatchText(seqNo: Option<nat>, text: Text, a: Answer)
      requires Linked() && phase == Idle && Disciplined(client.mls.View())
      modifies this, client, mls, opus
      ensures Step(client.env, old(View()), TextMessage(seqNo, text, a)) == Some(View())
    {
      if seqNo.Some? {
        lastSeq := seqNo.value;
      }
      match text
      case Hello =>
        if heartbeats == 0 {
          heartbeats := 1;
        }
      case SessionDescription(dave, key) => DispatchSessionDescription(dave, key, a);
      case Speaking(user, ssrc) => client.OnSpeaking(user, ssrc);
      case Epoch(version, epoch) => DispatchPrepareEpoch(version, epoch, a);
      case PrepareTransition(tid, version) => DispatchPrepareTransition(tid, version, a);
      case Execute => client.OnMlsChange();
      case Connect(users) => client.OnClientsConnect(users);
      case Disconnect(user) => client.OnClientDisconnect(user);
      case Ignored =>
      case Malformed => phase := Ended;
    }

    /** What is left of a commit or welcome after its reply went out. */
    method FinishDispatch()
      requires Linked() && phase == Parked
      requires Disciplined(client.mls.View())
      modifies this, mls
      ensures Step(client.env, old(View()), Resume) == Some(View())
    {
      client.OnMlsChange();
      phase := Idle;
    }
  }
}
